/**
 * LambdaReflector: finds the method a serialisable lambda refers to, so that
 * the graph can read its annotations. The serialised lambda names the
 * implementing class, the method name and the method's JVM descriptor
 * (section 4.3.3 of the Java Virtual Machine Specification); the reflector
 * picks, among the class's declared methods, the one with that name, and
 * compares descriptors it renders itself only when several share the name.
 *
 * Loading the class and listing its methods are a parameter here; a class
 * that cannot be loaded is an absent list.
 */
module LambdaReflection {
  import opened Wrappers
  import opened Ordering

  /** The primitive types and `void`, as `Class` objects for them. */
  datatype PrimitiveType = Boolean | Byte | Char | Double | Float | Int | Long | Short | Void

  /** A `Class`: a primitive type, an array type, or a class or interface named by its binary name. */
  datatype JvmType =
    | Primitive(kind: PrimitiveType)
    | ArrayOf(component: JvmType)
    | ClassType(name: string)

  /** A binary class name as `Class.getName` gives it: not empty, with no `/` and no `;`. */
  predicate ValidClassName(name: string)
  {
    |name| > 0 && '/' !in name && ';' !in name
  }

  predicate ValidType(t: JvmType)
  {
    match t
    case Primitive(_) => true
    case ArrayOf(c) => ValidType(c)
    case ClassType(name) => ValidClassName(name)
  }

  /** The base-type letters of table 4.3-A of the Java Virtual Machine Specification, with `V` for void. */
  function BaseTypeChar(k: PrimitiveType): (c: char)
    ensures c in "ZBCDFIJSV"
  {
    match k
    case Boolean => 'Z'
    case Byte => 'B'
    case Char => 'C'
    case Double => 'D'
    case Float => 'F'
    case Int => 'I'
    case Long => 'J'
    case Short => 'S'
    case Void => 'V'
  }

  /** The primitive type a base-type letter stands for. */
  function BaseType(c: char): (r: Option<PrimitiveType>)
    ensures r.Some? ==> BaseTypeChar(r.value) == c
  {
    match c
    case 'Z' => Some(Boolean)
    case 'B' => Some(Byte)
    case 'C' => Some(Char)
    case 'D' => Some(Double)
    case 'F' => Some(Float)
    case 'I' => Some(Int)
    case 'J' => Some(Long)
    case 'S' => Some(Short)
    case 'V' => Some(Void)
    case _ => None
  }

  /** Every base-type letter reads back as its type. */
  lemma BaseTypeRoundTrip(k: PrimitiveType)
    ensures BaseType(BaseTypeChar(k)) == Some(k)
  {
  }

  /** `String.replace(from, to)` on characters. */
  function Replace(s: string, from: char, to: char): (r: string)
    ensures |r| == |s|
    ensures forall i :: 0 <= i < |s| ==> r[i] == if s[i] == from then to else s[i]
  {
    if |s| == 0 then [] else [if s[0] == from then to else s[0]] + Replace(s[1..], from, to)
  }

  /** `signatureMapType`: the field descriptor of a type (section 4.3.2 of the Java Virtual Machine Specification). */
  function SignatureMapType(t: JvmType): (r: string)
    ensures |r| > 0
    ensures r[0] == '[' <==> t.ArrayOf?
    ensures r[0] == 'L' <==> t.ClassType?
    ensures r[0] != ')'
  {
    match t
    case ArrayOf(c) => "[" + SignatureMapType(c)
    case Primitive(k) => [BaseTypeChar(k)]
    case ClassType(name) => "L" + Replace(name, '.', '/') + ";"
  }

  /** The descriptors of the parameter types, one after another. */
  function ParameterDescriptors(ps: seq<JvmType>): string
  {
    if |ps| == 0 then "" else SignatureMapType(ps[0]) + ParameterDescriptors(ps[1..])
  }

  /** The method descriptor of section 4.3.3 of the Java Virtual Machine Specification: the parameter descriptors in parentheses, then the return descriptor. */
  function MethodDescriptor(parameterTypes: seq<JvmType>, returnType: JvmType): string
  {
    "(" + ParameterDescriptors(parameterTypes) + ")" + SignatureMapType(returnType)
  }

  /** A declared method: its name, parameter types and return type. */
  datatype MethodInfo = MethodInfo(name: string, parameterTypes: seq<JvmType>, returnType: JvmType)

  predicate ValidMethod(m: MethodInfo)
  {
    (forall i :: 0 <= i < |m.parameterTypes| ==> ValidType(m.parameterTypes[i])) && ValidType(m.returnType)
  }

  /** `signature(method)`: renders the descriptor into a string builder, parameter by parameter. */
  method Signature(m: MethodInfo) returns (s: string)
    ensures s == MethodDescriptor(m.parameterTypes, m.returnType)
  {
    var ps := m.parameterTypes;
    s := "(";
    for i := 0 to |ps|
      invariant s == "(" + ParameterDescriptors(ps[..i])
    {
      ParameterDescriptorsAppend(ps[..i], ps[i]);
      assert ps[..i + 1] == ps[..i] + [ps[i]];
      s := s + SignatureMapType(ps[i]);
    }
    assert ps[..|ps|] == ps;
    s := s + ")";
    s := s + SignatureMapType(m.returnType);
    assert s == "(" + ParameterDescriptors(ps) + ")" + SignatureMapType(m.returnType);
  }

  lemma {:induction false} ParameterDescriptorsAppend(ps: seq<JvmType>, t: JvmType)
    ensures ParameterDescriptors(ps + [t]) == ParameterDescriptors(ps) + SignatureMapType(t)
  {
    if |ps| > 0 {
      assert (ps + [t])[1..] == ps[1..] + [t];
      ParameterDescriptorsAppend(ps[1..], t);
    }
  }

  // Decoding descriptors: the inverse the encoder is proved against.

  /** The position of the first `c` in `s`, or `|s|` when there is none. */
  function IndexOfChar(s: string, c: char): (i: nat)
    ensures i <= |s|
    ensures i < |s| ==> s[i] == c
    ensures forall j :: 0 <= j < i ==> s[j] != c
  {
    if |s| == 0 then 0 else if s[0] == c then 0 else 1 + IndexOfChar(s[1..], c)
  }

  /** Reads one field descriptor off the front of `s`, returning the type and what follows it. */
  function DecodeFieldDescriptor(s: string): (r: Option<(JvmType, string)>)
    ensures r.Some? ==> |r.value.1| < |s|
    decreases |s|
  {
    if |s| == 0 then None
    else if s[0] == '[' then
      match DecodeFieldDescriptor(s[1..])
      case None => None
      case Some((c, rest)) => Some((ArrayOf(c), rest))
    else if s[0] == 'L' then
      var body := s[1..];
      var k := IndexOfChar(body, ';');
      if k == |body| || k == 0 || '.' in body[..k] then None
      else Some((ClassType(Replace(body[..k], '/', '.')), body[k + 1..]))
    else
      match BaseType(s[0])
      case None => None
      case Some(p) => Some((Primitive(p), s[1..]))
  }

  /** Reads parameter descriptors up to and including the closing `)`. */
  function DecodeParameters(s: string): (r: Option<(seq<JvmType>, string)>)
    decreases |s|
  {
    if |s| == 0 then None
    else if s[0] == ')' then Some(([], s[1..]))
    else
      match DecodeFieldDescriptor(s)
      case None => None
      case Some((t, rest)) =>
        match DecodeParameters(rest)
        case None => None
        case Some((ts, after)) => Some(([t] + ts, after))
  }

  /** Reads a whole method descriptor. */
  function DecodeMethodDescriptor(s: string): Option<(seq<JvmType>, JvmType)>
  {
    if |s| == 0 || s[0] != '(' then None
    else
      match DecodeParameters(s[1..])
      case None => None
      case Some((ps, after)) =>
        match DecodeFieldDescriptor(after)
        case None => None
        case Some((ret, tail)) => if tail == "" then Some((ps, ret)) else None
  }

  lemma ReplaceBack(name: string)
    requires '/' !in name
    ensures Replace(Replace(name, '.', '/'), '/', '.') == name
  {
    var r := Replace(Replace(name, '.', '/'), '/', '.');
    assert forall i :: 0 <= i < |name| ==> r[i] == name[i];
  }

  /** Decoding a field descriptor gives back the type, and leaves what followed it. */
  lemma {:induction false} FieldDescriptorRoundTrip(t: JvmType, rest: string)
    requires ValidType(t)
    ensures DecodeFieldDescriptor(SignatureMapType(t) + rest) == Some((t, rest))
  {
    match t
    case Primitive(k) =>
      PrimitiveDescriptorRoundTrip(k, rest);
    case ArrayOf(c) =>
      var s := SignatureMapType(t) + rest;
      assert s == "[" + (SignatureMapType(c) + rest);
      assert s[1..] == SignatureMapType(c) + rest;
      FieldDescriptorRoundTrip(c, rest);
    case ClassType(name) =>
      ClassDescriptorRoundTrip(name, rest);
  }

  lemma PrimitiveDescriptorRoundTrip(k: PrimitiveType, rest: string)
    ensures DecodeFieldDescriptor([BaseTypeChar(k)] + rest) == Some((Primitive(k), rest))
  {
    var s := [BaseTypeChar(k)] + rest;
    BaseTypeRoundTrip(k);
    assert s[0] == BaseTypeChar(k) && s[1..] == rest;
  }

  lemma ClassDescriptorRoundTrip(name: string, rest: string)
    requires ValidClassName(name)
    ensures DecodeFieldDescriptor("L" + Replace(name, '.', '/') + ";" + rest) == Some((ClassType(name), rest))
  {
    var s := "L" + Replace(name, '.', '/') + ";" + rest;
    var encoded := Replace(name, '.', '/');
    var body := s[1..];
    assert body == encoded + ";" + rest;
    forall j | 0 <= j < |encoded|
      ensures body[j] == encoded[j] && encoded[j] != ';'
    {
      assert name[j] in name;
    }
    assert body[|encoded|] == ';';
    assert IndexOfChar(body, ';') == |encoded|;
    assert body[..|encoded|] == encoded;
    assert '.' !in encoded;
    ReplaceBack(name);
    assert body[|encoded| + 1..] == rest;
  }

  /** Only an encoded descriptor decodes: what decodes is the encoding of the type it gives, followed by the rest. */
  lemma {:induction false} FieldDescriptorDecodesOnlyEncodings(s: string)
    requires DecodeFieldDescriptor(s).Some?
    ensures ValidType(DecodeFieldDescriptor(s).value.0)
    ensures s == SignatureMapType(DecodeFieldDescriptor(s).value.0) + DecodeFieldDescriptor(s).value.1
    decreases |s|
  {
    if s[0] == '[' {
      FieldDescriptorDecodesOnlyEncodings(s[1..]);
      var c := DecodeFieldDescriptor(s[1..]).value.0;
      var rest := DecodeFieldDescriptor(s[1..]).value.1;
      ArrayDecodesOnlyEncodings(s, c, rest);
    } else if s[0] == 'L' {
      ClassDecodesOnlyEncodings(s);
    } else {
      PrimitiveDecodesOnlyEncodings(s, BaseType(s[0]).value);
    }
  }

  /** The array case: `[` followed by the encoding of `c` is the encoding of an array of `c`. */
  lemma ArrayDecodesOnlyEncodings(s: string, c: JvmType, rest: string)
    requires |s| > 0 && s[0] == '['
    requires DecodeFieldDescriptor(s[1..]) == Some((c, rest))
    requires s[1..] == SignatureMapType(c) + rest
    ensures DecodeFieldDescriptor(s) == Some((ArrayOf(c), rest))
    ensures s == SignatureMapType(ArrayOf(c)) + rest
  {
    assert s == "[" + s[1..];
  }

  /** The primitive case: a base-type letter is the encoding of the type it stands for. */
  lemma PrimitiveDecodesOnlyEncodings(s: string, p: PrimitiveType)
    requires |s| > 0 && s[0] != '[' && s[0] != 'L' && BaseType(s[0]) == Some(p)
    ensures DecodeFieldDescriptor(s) == Some((Primitive(p), s[1..]))
    ensures s == SignatureMapType(Primitive(p)) + s[1..]
  {
    assert s == [s[0]] + s[1..];
  }

  /** The class case: a decoded `Lname;` is the encoding of the class name it gives. */
  lemma ClassDecodesOnlyEncodings(s: string)
    requires |s| > 0 && s[0] == 'L' && DecodeFieldDescriptor(s).Some?
    ensures ValidType(DecodeFieldDescriptor(s).value.0)
    ensures s == SignatureMapType(DecodeFieldDescriptor(s).value.0) + DecodeFieldDescriptor(s).value.1
  {
    var body := s[1..];
    var k := IndexOfChar(body, ';');
    var segment := body[..k];
    var name := Replace(segment, '/', '.');
    assert DecodeFieldDescriptor(s) == Some((ClassType(name), body[k + 1..]));
    SlashesBack(segment);
    assert ValidClassName(name) by {
      assert forall j :: 0 <= j < |segment| ==> segment[j] != ';';
    }
    SplitAtSemicolon(s, k);
  }

  /** Dotting a slashed name without dots and slashing it again gives it back. */
  lemma SlashesBack(segment: string)
    requires '.' !in segment
    ensures '/' !in Replace(segment, '/', '.')
    ensures Replace(Replace(segment, '/', '.'), '.', '/') == segment
  {
    var name := Replace(segment, '/', '.');
    var again := Replace(name, '.', '/');
    forall j | 0 <= j < |segment|
      ensures again[j] == segment[j] && name[j] != '/'
    {
      assert segment[j] in segment;
    }
  }

  /** `s` is `L`, the text up to the `;` at `k + 1`, the `;` and the rest. */
  lemma SplitAtSemicolon(s: string, k: nat)
    requires |s| > 0 && s[0] == 'L' && k < |s[1..]| && s[1..][k] == ';'
    ensures s == "L" + s[1..][..k] + ";" + s[1..][k + 1..]
  {
    var body := s[1..];
    assert body == body[..k] + body[k..];
    assert body[k..] == [';'] + body[k + 1..];
    assert s == [s[0]] + body;
  }

  lemma {:induction false} ParametersRoundTrip(ps: seq<JvmType>, rest: string)
    requires forall i :: 0 <= i < |ps| ==> ValidType(ps[i])
    ensures DecodeParameters(ParameterDescriptors(ps) + ")" + rest) == Some((ps, rest))
  {
    var text := ParameterDescriptors(ps) + ")" + rest;
    if |ps| == 0 {
      assert text == ")" + rest;
    } else {
      var tailText := ParameterDescriptors(ps[1..]) + ")" + rest;
      assert text == SignatureMapType(ps[0]) + tailText;
      assert text[0] != ')';
      FieldDescriptorRoundTrip(ps[0], tailText);
      ParametersRoundTrip(ps[1..], rest);
      assert DecodeParameters(text) == Some(([ps[0]] + ps[1..], rest));
      assert [ps[0]] + ps[1..] == ps;
    }
  }

  lemma {:induction false} ParametersDecodeOnlyEncodings(s: string)
    requires DecodeParameters(s).Some?
    ensures forall i :: 0 <= i < |DecodeParameters(s).value.0| ==> ValidType(DecodeParameters(s).value.0[i])
    ensures s == ParameterDescriptors(DecodeParameters(s).value.0) + ")" + DecodeParameters(s).value.1
    decreases |s|
  {
    if s[0] == ')' {
      assert s == [s[0]] + s[1..];
    } else {
      var t := DecodeFieldDescriptor(s).value.0;
      var rest := DecodeFieldDescriptor(s).value.1;
      FieldDescriptorDecodesOnlyEncodings(s);
      ParametersDecodeOnlyEncodings(rest);
      var ts := DecodeParameters(rest).value.0;
      var after := DecodeParameters(rest).value.1;
      assert DecodeParameters(s) == Some(([t] + ts, after));
      assert ([t] + ts)[0] == t && ([t] + ts)[1..] == ts;
      assert s == SignatureMapType(t) + ParameterDescriptors(ts) + ")" + after;
    }
  }

  /** Decoding the descriptor of a method gives back its parameter and return types. */
  lemma MethodDescriptorRoundTrip(m: MethodInfo)
    requires ValidMethod(m)
    ensures DecodeMethodDescriptor(MethodDescriptor(m.parameterTypes, m.returnType)) == Some((m.parameterTypes, m.returnType))
  {
    var ret := SignatureMapType(m.returnType);
    var s := MethodDescriptor(m.parameterTypes, m.returnType);
    ParametersRoundTrip(m.parameterTypes, ret);
    assert s == "(" + (ParameterDescriptors(m.parameterTypes) + ")" + ret);
    assert s[1..] == ParameterDescriptors(m.parameterTypes) + ")" + ret;
    assert DecodeParameters(s[1..]) == Some((m.parameterTypes, ret));
    FieldDescriptorRoundTrip(m.returnType, "");
    assert ret + "" == ret;
    assert DecodeFieldDescriptor(ret) == Some((m.returnType, ""));
  }

  /** A string that decodes as a method descriptor is the descriptor of the types it decodes to. */
  lemma MethodDescriptorDecodesOnlyEncodings(s: string)
    requires DecodeMethodDescriptor(s).Some?
    ensures s == MethodDescriptor(DecodeMethodDescriptor(s).value.0, DecodeMethodDescriptor(s).value.1)
  {
    var ps := DecodeParameters(s[1..]).value.0;
    var after := DecodeParameters(s[1..]).value.1;
    ParametersDecodeOnlyEncodings(s[1..]);
    assert s[1..] == ParameterDescriptors(ps) + ")" + after;
    var ret := DecodeFieldDescriptor(after).value.0;
    FieldDescriptorDecodesOnlyEncodings(after);
    assert DecodeFieldDescriptor(after).value.1 == "";
    assert after == SignatureMapType(ret);
    assert DecodeMethodDescriptor(s) == Some((ps, ret));
    assert s == "(" + s[1..];
  }

  /** Two methods with valid types have the same descriptor only when their parameter and return types agree. */
  lemma MethodDescriptorInjective(m1: MethodInfo, m2: MethodInfo)
    requires ValidMethod(m1) && ValidMethod(m2)
    requires MethodDescriptor(m1.parameterTypes, m1.returnType) == MethodDescriptor(m2.parameterTypes, m2.returnType)
    ensures m1.parameterTypes == m2.parameterTypes && m1.returnType == m2.returnType
  {
    MethodDescriptorRoundTrip(m1);
    MethodDescriptorRoundTrip(m2);
  }

  /**
   * `compareSignatures`: the method's rendered descriptor equals the given
   * one, which for a method with valid types is the same as the given
   * descriptor decoding to the method's parameter and return types.
   */
  function CompareSignatures(m: MethodInfo, signature: string): (r: bool)
    ensures ValidMethod(m) ==> (r <==> DecodeMethodDescriptor(signature) == Some((m.parameterTypes, m.returnType)))
  {
    var matches := MethodDescriptor(m.parameterTypes, m.returnType) == signature;
    if ValidMethod(m) && DecodeMethodDescriptor(signature).Some? then
      MethodDescriptorRoundTrip(m);
      MethodDescriptorDecodesOnlyEncodings(signature);
      matches
    else if ValidMethod(m) then
      MethodDescriptorRoundTrip(m);
      matches
    else matches
  }

  // Selecting the referenced method.

  /** What a serialised lambda names; a `null` class or method name is absent. */
  datatype SerializedLambda = SerializedLambda(
    implClass: Option<string>,
    implMethodName: Option<string>,
    implMethodSignature: string)

  datatype MethodReference = MethodReference(methodClass: string, methodInfo: MethodInfo)

  function HasName(name: string): MethodInfo -> bool
  {
    (m: MethodInfo) => m.name == name
  }

  function MatchesSignature(signature: string): MethodInfo -> bool
  {
    (m: MethodInfo) => CompareSignatures(m, signature)
  }

  /**
   * The selection rule over the declared methods: the methods named `name`;
   * none gives nothing, exactly one is taken without looking at its
   * descriptor; among several, the one whose descriptor equals `signature`,
   * and nothing when none or more than one does (the exception thrown for
   * several is caught by the surrounding handler, which returns nothing).
   */
  function SelectMethod(methods: seq<MethodInfo>, name: string, signature: string): (r: Option<MethodInfo>)
    ensures r.Some? ==> r.value in methods && r.value.name == name
    ensures (forall j :: 0 <= j < |methods| ==> methods[j].name != name) ==> r.None?
    ensures forall i :: OnlyAt(methods, HasName(name), i) ==> r == Some(methods[i])
    ensures var named := Filter(methods, HasName(name));
      (!exists i :: OnlyAt(methods, HasName(name), i)) ==>
        (r.Some? <==> exists i :: OnlyAt(named, MatchesSignature(signature), i))
        && (forall i :: OnlyAt(named, MatchesSignature(signature), i) ==> r == Some(named[i]))
  {
    var named := Filter(methods, HasName(name));
    FilterCounts(methods, HasName(name));
    if |named| == 0 then None
    else if |named| == 1 then Some(named[0])
    else
      var matched := Filter(named, MatchesSignature(signature));
      FilterCounts(named, MatchesSignature(signature));
      if |matched| == 0 then None
      else if |matched| == 1 then Some(matched[0])
      else None
  }

  /**
   * `methodReference`: nothing when there is no serialised lambda or it lacks
   * the class or method name; otherwise the class name with `/` read as `.`,
   * nothing when that class cannot be loaded, and else the selection rule
   * over its declared methods.
   */
  function ReferencedMethod(lambda: Option<SerializedLambda>, declaredMethods: string -> Option<seq<MethodInfo>>)
    : (r: Option<MethodReference>)
    ensures lambda.None? || lambda.value.implClass.None? || lambda.value.implMethodName.None? ==> r.None?
    ensures r.Some? ==>
      var className := Replace(lambda.value.implClass.value, '/', '.');
      r.value.methodClass == className
      && declaredMethods(className).Some?
      && r.value.methodInfo in declaredMethods(className).value
      && r.value.methodInfo.name == lambda.value.implMethodName.value
    ensures lambda.Some? && lambda.value.implClass.Some? && lambda.value.implMethodName.Some? ==>
      var className := Replace(lambda.value.implClass.value, '/', '.');
      declaredMethods(className).None? ==> r.None?
    ensures lambda.Some? && lambda.value.implClass.Some? && lambda.value.implMethodName.Some? ==>
      var className := Replace(lambda.value.implClass.value, '/', '.');
      declaredMethods(className).Some? ==>
        var selected := SelectMethod(declaredMethods(className).value, lambda.value.implMethodName.value,
                                     lambda.value.implMethodSignature);
        (r.Some? <==> selected.Some?) && (r.Some? ==> r.value.methodInfo == selected.value)
  {
    if lambda.None? || lambda.value.implClass.None? || lambda.value.implMethodName.None? then None
    else
      var className := Replace(lambda.value.implClass.value, '/', '.');
      match declaredMethods(className)
      case None => None
      case Some(methods) =>
        match SelectMethod(methods, lambda.value.implMethodName.value, lambda.value.implMethodSignature)
        case None => None
        case Some(m) => Some(MethodReference(className, m))
  }

  /**
   * Overloads are told apart by descriptor: when two declared methods share
   * the lambda's method name, the one whose parameter and return types the
   * lambda's descriptor encodes is selected, provided no other overload has
   * those types.
   */
  lemma OverloadSelectedByDescriptor(methods: seq<MethodInfo>, name: string, i: nat, j: nat)
    requires i < |methods| && j < |methods| && i != j
    requires methods[i].name == name && methods[j].name == name
    requires Distinct(methods)
    requires forall k :: 0 <= k < |methods| ==> ValidMethod(methods[k])
    requires forall k :: 0 <= k < |methods| && k != i && methods[k].name == name ==>
      (methods[k].parameterTypes, methods[k].returnType) != (methods[i].parameterTypes, methods[i].returnType)
    ensures SelectMethod(methods, name, MethodDescriptor(methods[i].parameterTypes, methods[i].returnType)) == Some(methods[i])
  {
    var signature := MethodDescriptor(methods[i].parameterTypes, methods[i].returnType);
    var named := Filter(methods, HasName(name));
    assert HasName(name)(methods[i]) && HasName(name)(methods[j]);
    MethodDescriptorRoundTrip(methods[i]);
    assert methods[i] in named;
    var p :| 0 <= p < |named| && named[p] == methods[i];
    forall q | 0 <= q < |named| && q != p
      ensures !MatchesSignature(signature)(named[q])
    {
      var m := named[q];
      var k :| 0 <= k < |methods| && methods[k] == m;
      assert named[q] != named[p];
    }
    assert OnlyAt(named, MatchesSignature(signature), p);
  }
}
