/** pkg/dataset/dataset.go: redaction of a value before it enters the dataset. */
module Redact {
  import opened Text
  import opened DataClass

  /** strings.Join over the sorted class names. */
  type Names = set<Class> -> string

  function Marker(names: Names, cs: set<Class>): string {
    "[" + names(cs) + "]"
  }

  /** redactString. Only the scanned prefix of a long string is looked at. */
  function RedactString(d: Detector, names: Names, s: string): string {
    var cs := Detected(d, s);
    if cs == {} then s else Marker(names, cs)
  }

  /** redact, as a function. */
  function Redacted(d: Detector, names: Names, v: Value, depth: nat): Value
    decreases v
  {
    if depth > MAX_DEPTH then Str("[truncated]")
    else
      match v
      case Str(t) => Str(RedactString(d, names, t))
      case Num(t) => if RedactString(d, names, t) != t then Str(RedactString(d, names, t)) else v
      case List(false, items) => List(false, RedactedAll(d, names, items, depth + 1))
      case Object(false, keys, items) => Object(false, keys, RedactedAll(d, names, items, depth + 1))
      case Nil | Bool(_) | Int(_) => v
      case _ => Str("[unsupported]")
  }

  function RedactedAll(d: Detector, names: Names, vs: seq<Value>, depth: nat): (r: seq<Value>)
    ensures |r| == |vs|
    decreases vs
  {
    if vs == [] then []
    else RedactedAll(d, names, vs[..|vs| - 1], depth) + [Redacted(d, names, vs[|vs| - 1], depth)]
  }

  /** redact: containers are rebuilt by filling a fresh array. */
  method RedactValue(d: Detector, names: Names, v: Value, depth: nat) returns (r: Value)
    ensures r == Redacted(d, names, v, depth)
    decreases v
  {
    if depth > MAX_DEPTH {
      return Str("[truncated]");
    }
    match v
    case Str(t) =>
      r := Str(RedactString(d, names, t));
    case Num(t) =>
      var u := RedactString(d, names, t);
      r := if u != t then Str(u) else v;
    case List(false, items) =>
      var out := RedactItems(d, names, items, depth + 1);
      r := List(false, out);
    case Object(false, keys, items) =>
      var out := RedactItems(d, names, items, depth + 1);
      r := Object(false, keys, out);
    case Nil | Bool(_) | Int(_) =>
      r := v;
    case _ =>
      r := Str("[unsupported]");
  }

  method RedactItems(d: Detector, names: Names, vs: seq<Value>, depth: nat) returns (r: seq<Value>)
    ensures r == RedactedAll(d, names, vs, depth)
    decreases vs
  {
    var out := new Value[|vs|](_ => Nil);
    for i := 0 to |vs|
      invariant out[..i] == RedactedAll(d, names, vs[..i], depth)
    {
      assert vs[..i + 1][..i] == vs[..i];
      var e := RedactValue(d, names, vs[i], depth);
      out[i] := e;
      assert out[..i + 1] == out[..i] + [e];
    }
    assert vs[..|vs|] == vs && out[..|vs|] == out[..];
    return out[..];
  }

  /** A text that shows nothing: no detector fires on any part of it, or it is a
      marker. */
  ghost predicate Harmless(d: Detector, names: Names, t: string) {
    d(t) == {} || t == "[truncated]" || t == "[unsupported]" || exists cs :: t == Marker(names, cs)
  }

  /** Every leaf is harmless. */
  ghost predicate AllHarmless(d: Detector, names: Names, v: Value)
    decreases v
  {
    match v
    case Nil | Bool(_) | Unknown => true
    case Str(t) => Harmless(d, names, t)
    case Num(t) => Harmless(d, names, t)
    case Int(t) => Harmless(d, names, t)
    case SizedInt(t) => Harmless(d, names, t)
    case List(_, items) => AllHarmlessIn(d, names, items)
    case Object(_, _, items) => AllHarmlessIn(d, names, items)
  }

  ghost predicate AllHarmlessIn(d: Detector, names: Names, vs: seq<Value>)
    decreases vs
  {
    vs == [] || (AllHarmlessIn(d, names, vs[..|vs| - 1]) && AllHarmless(d, names, vs[|vs| - 1]))
  }

  /** What redaction lets through: within the depth limit, an int or int64 that
      a detector knows, or a string whose only findings lie past the scanned
      prefix. */
  ghost predicate LetsThrough(d: Detector, names: Names, v: Value, depth: nat)
    decreases v
  {
    depth <= MAX_DEPTH &&
    match v
    case Str(t) => Detected(d, t) == {} && !Harmless(d, names, t)
    case Num(t) => Detected(d, t) == {} && !Harmless(d, names, t)
    case Int(t) => !Harmless(d, names, t)
    case List(false, items) => LetsThroughAny(d, names, items, depth + 1)
    case Object(false, _, items) => LetsThroughAny(d, names, items, depth + 1)
    case _ => false
  }

  ghost predicate LetsThroughAny(d: Detector, names: Names, vs: seq<Value>, depth: nat)
    decreases vs
  {
    vs != [] && (LetsThroughAny(d, names, vs[..|vs| - 1], depth) || LetsThrough(d, names, vs[|vs| - 1], depth))
  }

  /** Redaction leaves only harmless leaves exactly when nothing in the value is
      of a kind it lets through. */
  lemma {:induction false} RedactionIsSafeIff(d: Detector, names: Names, v: Value, depth: nat)
    ensures AllHarmless(d, names, Redacted(d, names, v, depth)) <==> !LetsThrough(d, names, v, depth)
    decreases v
  {
    if v.List? || v.Object? {
      RedactionIsSafeIffAll(d, names, v.items, depth + 1);
    }
    if v.Str? || v.Num? {
      assert Detected(d, v.text) != {} ==> RedactString(d, names, v.text) == Marker(names, Detected(d, v.text));
    }
  }

  lemma {:induction false} RedactionIsSafeIffAll(d: Detector, names: Names, vs: seq<Value>, depth: nat)
    ensures AllHarmlessIn(d, names, RedactedAll(d, names, vs, depth)) <==> !LetsThroughAny(d, names, vs, depth)
    decreases vs
  {
    if vs != [] {
      var init, last := vs[..|vs| - 1], vs[|vs| - 1];
      RedactionIsSafeIffAll(d, names, init, depth);
      RedactionIsSafeIff(d, names, last, depth);
      var r := RedactedAll(d, names, vs, depth);
      assert r[..|r| - 1] == RedactedAll(d, names, init, depth) && r[|r| - 1] == Redacted(d, names, last, depth);
    }
  }

  /** Nothing in the value is of a kind that redaction replaces: all of it lies
      within the depth limit and is of a known type, and every text is one in whose
      scanned prefix no detector fires, or already the marker of what is found. */
  ghost predicate NothingToRedact(d: Detector, names: Names, v: Value, depth: nat)
    decreases v
  {
    if depth > 8 then v == Str("[truncated]")
    else
      match v
      case Nil | Bool(_) | Int(_) => true
      case Str(t) => Prefixed(d, t) == {} || t == "[" + names(Prefixed(d, t)) + "]"
      case Num(t) => Prefixed(d, t) == {} || t == "[" + names(Prefixed(d, t)) + "]"
      case List(typed, items) => !typed && forall i | 0 <= i < |items| :: NothingToRedact(d, names, items[i], depth + 1)
      case Object(typed, _, items) =>
        !typed && forall i | 0 <= i < |items| :: NothingToRedact(d, names, items[i], depth + 1)
      case _ => false
  }

  /** What a detector finds in the first 65536 bytes. */
  function Prefixed(d: Detector, t: string): set<Class> {
    d(if |t| > 65536 then t[..65536] else t)
  }

  /** Redaction keeps a value exactly when there is nothing in it to redact. */
  lemma {:induction false} KeptIff(d: Detector, names: Names, v: Value, depth: nat)
    ensures Redacted(d, names, v, depth) == v <==> NothingToRedact(d, names, v, depth)
    decreases v
  {
    if v.List? || v.Object? {
      ItemsRedacted(d, names, v.items, depth + 1);
      forall i | 0 <= i < |v.items|
        ensures RedactedAll(d, names, v.items, depth + 1)[i] == v.items[i] <==>
                NothingToRedact(d, names, v.items[i], depth + 1)
      {
        KeptIff(d, names, v.items[i], depth + 1);
      }
    }
  }

  /** Items are redacted one by one, in their places; and a text that is not kept
      becomes the names of what was found in it. */
  lemma {:induction false} ItemsRedacted(d: Detector, names: Names, vs: seq<Value>, depth: nat)
    ensures forall i | 0 <= i < |vs| :: RedactedAll(d, names, vs, depth)[i] == Redacted(d, names, vs[i], depth)
    ensures forall t :: depth <= 8 && Prefixed(d, t) != {} ==>
              Redacted(d, names, Str(t), depth) == Str("[" + names(Prefixed(d, t)) + "]")
  {
    if vs != [] {
      ItemsRedacted(d, names, vs[..|vs| - 1], depth);
    }
  }

  /** A value decoded from JSON has no Go integers, so only text past the scanned
      prefix can be let through: with short strings redaction is safe. */
  predicate FromJson(v: Value)
    decreases v
  {
    match v
    case Str(t) => |t| <= MAX_STRING_BYTES
    case Num(t) => |t| <= MAX_STRING_BYTES
    case Int(_) => false
    case List(_, items) => AllFromJson(items)
    case Object(_, _, items) => AllFromJson(items)
    case _ => true
  }

  predicate AllFromJson(vs: seq<Value>)
    decreases vs
  {
    vs == [] || (AllFromJson(vs[..|vs| - 1]) && FromJson(vs[|vs| - 1]))
  }

  lemma {:induction false} JsonRedactionIsSafe(d: Detector, names: Names, v: Value, depth: nat)
    requires FromJson(v)
    ensures !LetsThrough(d, names, v, depth) && AllHarmless(d, names, Redacted(d, names, v, depth))
    decreases v
  {
    if v.List? || v.Object? {
      JsonRedactionIsSafeAll(d, names, v.items, depth + 1);
    }
    RedactionIsSafeIff(d, names, v, depth);
  }

  lemma {:induction false} JsonRedactionIsSafeAll(d: Detector, names: Names, vs: seq<Value>, depth: nat)
    requires AllFromJson(vs)
    ensures !LetsThroughAny(d, names, vs, depth)
    decreases vs
  {
    if vs != [] {
      JsonRedactionIsSafeAll(d, names, vs[..|vs| - 1], depth);
      JsonRedactionIsSafe(d, names, vs[|vs| - 1], depth);
    }
  }

  /** A detector of one letter, and a text that holds it just past the prefix
      that is scanned. */
  function SampleDetector(s: string): set<Class> {
    if 'x' in s then {"email"} else {}
  }

  function SampleText(): (t: string)
    ensures |t| == MAX_STRING_BYTES + 1
  {
    seq(MAX_STRING_BYTES, _ => 'a') + "x"
  }

  /** Such texts exist: a decoded JSON string of one byte more than is scanned is
      kept as it is, with what a detector finds in it. */
  lemma {:induction false} LongTextIsLetThrough(names: Names)
    ensures var v := Str(SampleText());
            && Redacted(SampleDetector, names, v, 0) == v
            && LetsThrough(SampleDetector, names, v, 0) && !AllHarmless(SampleDetector, names, v)
  {
    var t := SampleText();
    assert t[MAX_STRING_BYTES] == 'x';
    assert 'x' in t;
    assert forall i | 0 <= i < MAX_STRING_BYTES :: t[..MAX_STRING_BYTES][i] == 'a';
    assert Detected(SampleDetector, t) == {};
    forall cs
      ensures Marker(names, cs) != t
    {
      assert Marker(names, cs)[0] == '[';
    }
    assert t[0] == 'a' && "[truncated]"[0] == '[' && "[unsupported]"[0] == '[';
  }
}
