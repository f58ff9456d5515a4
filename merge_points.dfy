/**
 * The two merge-point identity objects: CRMergePoint (a detached merge point of
 * the DSL, named late through `setName`) and the older GraphMergePoint (numbered
 * late through `withId`). Both are updated in place and return themselves.
 */
module MergePoints {
  import opened Wrappers
  import opened Identities
  import opened Descriptions

  /** How Java writes a possibly-null string in a concatenation. */
  function NullableText(s: Option<string>): string
  {
    if s.Some? then s.value else "null"
  }

  class CRMergePoint {
    /** The number `serialize(CRMergePoint)` reads through `getId()`. */
    const id: int
    /** The name of the identity; null until `setName`. */
    var name: Option<string>
    const mergePointDescription: MergePointDescription

    constructor (id: int, mergePointDescription: MergePointDescription)
      ensures this.id == id && this.mergePointDescription == mergePointDescription
      ensures name == None
    {
      this.id := id;
      this.mergePointDescription := mergePointDescription;
      name := None;
    }

    /** The identity: always of merge-point type, carrying the current name. */
    function Identity(): Identity
      reads this
    {
      MergePointIdentity(name)
    }

    /** `setName`: renames the identity, keeps everything else, and returns this object. */
    method SetName(name: Option<string>) returns (r: CRMergePoint)
      modifies this`name
      ensures r == this
      ensures Identity() == MergePointIdentity(name)
    {
      this.name := name;
      r := this;
    }

    /** `getProfilingName`: "mergePoint." followed by the name ("null" when unnamed). */
    function ProfilingName(): string
      reads this
    {
      "mergePoint." + NullableText(name)
    }

    /**
     * `getDebugName` is the identity's `toString`; the text of that rendering is
     * not part of the model, so the debug name is the identity itself.
     */
    function DebugName(): (r: Identity)
      reads this
      ensures r.MergePointIdentity? && r.name == name
    {
      Identity()
    }

    /** Lombok `equals`: compares the identity and description fields, not the getters. */
    predicate Equals(other: CRMergePoint)
      reads this, other
    {
      name == other.name && mergePointDescription == other.mergePointDescription
    }
  }

  /** Two merge points whose profiling names agree and that are both named have the same name. */
  lemma ProfilingNameDeterminesName(a: CRMergePoint, b: CRMergePoint)
    requires a.name.Some? && b.name.Some?
    requires a.ProfilingName() == b.ProfilingName()
    ensures a.name == b.name
  {
    var p := "mergePoint.";
    assert a.name.value == (p + a.name.value)[|p|..];
    assert b.name.value == (p + b.name.value)[|p|..];
  }

  /** An unnamed merge point profiles exactly like one named "null". */
  lemma UnnamedProfilesAsNull(a: CRMergePoint, b: CRMergePoint)
    requires a.name == None && b.name == Some("null")
    ensures a.ProfilingName() == b.ProfilingName()
  {
  }

  /** Equal merge points have equal identities: `equals` never relates two differently named objects. */
  lemma EqualMergePointsShareIdentity(a: CRMergePoint, b: CRMergePoint)
    requires a.Equals(b)
    ensures a.Identity() == b.Identity()
  {
  }

  class GraphMergePoint {
    var id: int
    const mergePointDescription: MergePointDescription

    constructor (mergePointDescription: MergePointDescription)
      ensures id == 0 && this.mergePointDescription == mergePointDescription
    {
      id := 0;
      this.mergePointDescription := mergePointDescription;
    }

    /** `withId`: sets the id and returns this object. */
    method WithId(id: int) returns (r: GraphMergePoint)
      modifies this`id
      ensures r == this && this.id == id
    {
      this.id := id;
      r := this;
    }

    /** `getProfilingName`: "mergePoint." followed by the id. */
    function ProfilingName(): string
      reads this
    {
      "mergePoint." + IntToString(id)
    }

    /** `getDebugName`: "mergePoint@" followed by the id (lower-case m). */
    function DebugName(): string
      reads this
    {
      "mergePoint@" + IntToString(id)
    }
  }

  /** The debug name of a GraphMergePoint tells its id. */
  lemma GraphDebugNameDeterminesId(a: GraphMergePoint, b: GraphMergePoint)
    requires a.DebugName() == b.DebugName()
    ensures a.id == b.id
  {
    var p := "mergePoint@";
    assert IntToString(a.id) == a.DebugName()[|p|..];
    assert IntToString(b.id) == b.DebugName()[|p|..];
    IntToStringInjective(a.id, b.id);
  }

  /** The profiling name of a GraphMergePoint tells its id. */
  lemma GraphProfilingNameDeterminesId(a: GraphMergePoint, b: GraphMergePoint)
    requires a.ProfilingName() == b.ProfilingName()
    ensures a.id == b.id
  {
    var p := "mergePoint.";
    assert IntToString(a.id) == a.ProfilingName()[|p|..];
    assert IntToString(b.id) == b.ProfilingName()[|p|..];
    IntToStringInjective(a.id, b.id);
  }

  /**
   * The debug name of a GraphMergePoint never equals the identity string the
   * graph registry gives a merge point ("MergePoint@"), whatever the two ids.
   */
  lemma GraphDebugNameIsNotIdentityString(g: GraphMergePoint, id: int)
    ensures g.DebugName() != SerializeMergePoint(id)
  {
    assert g.DebugName()[0] == 'm';
    assert SerializeMergePoint(id)[0] == 'M';
  }
}
