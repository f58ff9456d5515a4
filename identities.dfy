/**
 * Identities of processing items and the identity strings built from them:
 * `Type@id` for processors and subgraphs, `MergePoint@id` for detached merge points
 * (the static `serialize` overloads of CRReactorGraph). Numbers are written as
 * Java's `%d` and string concatenation write an `int`: optional minus sign, then
 * decimal digits without leading zeros.
 */
module Identities {
  import opened Wrappers

  /** A Java class: its binary name (`a.b.Outer$Inner`) and its simple name (`Inner`). */
  datatype JavaClass = JavaClass(name: string, simpleName: string)

  /** The identity of a processing item; the variant is the identity's type. */
  datatype Identity =
    | ProcessorIdentity(processorType: JavaClass, id: int)
    | SubgraphIdentity(payloadClass: JavaClass, id: int)
    | MergePointIdentity(name: Option<string>)

  // ---------------------------------------------------------------------------
  // Decimal rendering of integers (%d)

  function DigitChar(d: nat): (c: char)
    requires d < 10
  {
    "0123456789"[d]
  }

  function DigitValue(c: char): nat
  {
    if '0' <= c <= '9' then (c as int - '0' as int) as nat else 0
  }

  predicate IsDigit(c: char)
  {
    '0' <= c <= '9'
  }

  /** Decimal digits of a non-negative number, most significant first. */
  function NatToString(n: nat): (s: string)
    ensures |s| > 0
    ensures forall i :: 0 <= i < |s| ==> IsDigit(s[i])
  {
    if n < 10 then [DigitChar(n)] else NatToString(n / 10) + [DigitChar(n % 10)]
  }

  /** `Integer.toString(n)`: the text `%d` produces for an `int`. */
  function IntToString(n: int): (s: string)
  {
    if n < 0 then "-" + NatToString(-n) else NatToString(n)
  }

  /** Reads a string of decimal digits back as a number. */
  function ParseDigits(s: string): nat
  {
    if |s| == 0 then 0 else ParseDigits(s[..|s| - 1]) * 10 + DigitValue(s[|s| - 1])
  }

  /** Reads a rendered `int` back. */
  function ParseInt(s: string): int
  {
    if |s| > 0 && s[0] == '-' then -(ParseDigits(s[1..]) as int) else ParseDigits(s)
  }

  lemma DigitRoundTrip(d: nat)
    requires d < 10
    ensures DigitValue(DigitChar(d)) == d
  {
    assert "0123456789"[d] as int == '0' as int + d;
  }

  lemma {:induction false} NatToStringRoundTrip(n: nat)
    ensures ParseDigits(NatToString(n)) == n
  {
    if n < 10 {
      DigitRoundTrip(n);
    } else {
      var prefix := NatToString(n / 10);
      var s := prefix + [DigitChar(n % 10)];
      assert s[..|s| - 1] == prefix;
      NatToStringRoundTrip(n / 10);
      DigitRoundTrip(n % 10);
    }
  }

  /** Rendering an `int` can be undone, so two ids never render alike. */
  lemma IntToStringRoundTrip(n: int)
    ensures ParseInt(IntToString(n)) == n
  {
    var digits := NatToString(if n < 0 then -n else n);
    NatToStringRoundTrip(if n < 0 then -n else n);
    if n < 0 {
      assert ("-" + digits)[1..] == digits;
    } else {
      assert IsDigit(digits[0]);
    }
  }

  lemma IntToStringInjective(a: int, b: int)
    requires IntToString(a) == IntToString(b)
    ensures a == b
  {
    IntToStringRoundTrip(a);
    IntToStringRoundTrip(b);
  }

  lemma IntToStringHasNoAt(n: int)
    ensures '@' !in IntToString(n)
  {
    var digits := NatToString(if n < 0 then -n else n);
    assert forall i :: 0 <= i < |digits| ==> digits[i] != '@';
  }

  // ---------------------------------------------------------------------------
  // Identity strings

  /** `serialize(Class processorType, int id)`: simple name, `@`, id. */
  function SerializeType(processorType: JavaClass, id: int): string
  {
    processorType.simpleName + "@" + IntToString(id)
  }

  /** `serializeMergePoint(int id)`. */
  function SerializeMergePoint(id: int): string
  {
    "MergePoint@" + IntToString(id)
  }

  /** A Java simple name never contains `@`. */
  predicate IsSimpleName(c: JavaClass)
  {
    '@' !in c.simpleName
  }

  /** Position of the first `@` in `s`, or `|s|` when there is none. */
  function IndexOfAt(s: string): (i: nat)
    ensures i <= |s|
  {
    if |s| == 0 then 0 else if s[0] == '@' then 0 else 1 + IndexOfAt(s[1..])
  }

  lemma {:induction false} IndexOfAtAfter(a: string, d: string)
    requires '@' !in a
    ensures IndexOfAt(a + "@" + d) == |a|
  {
    if |a| > 0 {
      assert (a + "@" + d)[1..] == a[1..] + "@" + d;
      IndexOfAtAfter(a[1..], d);
    }
  }

  /** The part before the first `@` and the part after it are determined by the whole. */
  lemma SplitAtFirstAt(a1: string, d1: string, a2: string, d2: string)
    requires '@' !in a1 && '@' !in a2
    requires a1 + "@" + d1 == a2 + "@" + d2
    ensures a1 == a2 && d1 == d2
  {
    var s := a1 + "@" + d1;
    IndexOfAtAfter(a1, d1);
    IndexOfAtAfter(a2, d2);
    assert a1 == s[..|a1|] == a2;
    assert d1 == s[|a1| + 1..] == d2;
  }

  /**
   * Identity strings of processors are unambiguous: with simple names (no `@`),
   * equal strings mean equal simple names and equal ids.
   */
  lemma SerializeTypeInjective(c1: JavaClass, id1: int, c2: JavaClass, id2: int)
    requires IsSimpleName(c1) && IsSimpleName(c2)
    requires SerializeType(c1, id1) == SerializeType(c2, id2)
    ensures c1.simpleName == c2.simpleName && id1 == id2
  {
    SplitAtFirstAt(c1.simpleName, IntToString(id1), c2.simpleName, IntToString(id2));
    IntToStringInjective(id1, id2);
  }

  /**
   * The string of a detached merge point is exactly the string of a processor
   * class whose simple name is `MergePoint`: identity strings alone cannot tell
   * the two kinds apart.
   */
  lemma MergePointStringIsTypeString(id: int, c: JavaClass)
    requires c.simpleName == "MergePoint"
    ensures SerializeMergePoint(id) == SerializeType(c, id)
  {
  }

  /** Merge point strings determine the id. */
  lemma SerializeMergePointInjective(id1: int, id2: int)
    requires SerializeMergePoint(id1) == SerializeMergePoint(id2)
    ensures id1 == id2
  {
    var s := SerializeMergePoint(id1);
    assert s[11..] == IntToString(id1);
    assert SerializeMergePoint(id2)[11..] == IntToString(id2);
    IntToStringInjective(id1, id2);
  }
}
