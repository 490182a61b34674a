/** pkg/dataclass/dataclass.go: the budgeted scan of a JSON-like value.

    The detectors of one string are an arbitrary function `d` from a string to
    the classes found in it.
  */
module DataClass {
  import opened Text

  const MAX_DEPTH := 8
  const MAX_STRING_BYTES := 65536
  const MAX_TOTAL_BYTES := 1048576
  const MAX_NODES := 10000

  type Class = string

  type Detector = string -> set<Class>

  /** A decoded value. Numbers carry the text the scan gives them: a json.Number
      or a float64, an int or int64, or another integer type. `typed` marks
      []string and map[string]string. Fields stand in key order. */
  datatype Value =
    | Nil
    | Bool(b: bool)
    | Str(text: string)
    | Num(text: string)
    | Int(text: string)
    | SizedInt(text: string)
    | List(typed: bool, items: seq<Value>)
    | Object(typed: bool, keys: seq<string>, items: seq<Value>)
    | Unknown

  // ------------------------------------------------------- the sorted result

  /** Go's order of strings, byte by byte. */
  predicate Before(a: string, b: string) {
    b != "" && (a == "" || a[0] < b[0] || (a[0] == b[0] && Before(a[1..], b[1..])))
  }

  lemma {:induction false} BeforeIsTotal(a: string, b: string)
    ensures a == b || Before(a, b) || Before(b, a)
  {
    if a != "" && b != "" && a[0] == b[0] {
      BeforeIsTotal(a[1..], b[1..]);
      assert a == [a[0]] + a[1..] && b == [b[0]] + b[1..];
    }
  }

  lemma {:induction false} BeforeIsStrict(a: string, b: string)
    requires Before(a, b)
    ensures a != b && !Before(b, a)
  {
    if a != "" && a[0] == b[0] {
      BeforeIsStrict(a[1..], b[1..]);
    }
  }

  lemma {:induction false} BeforeIsTransitive(a: string, b: string, c: string)
    requires Before(a, b) && Before(b, c)
    ensures Before(a, c)
  {
    if a != "" && a[0] == b[0] && b[0] == c[0] {
      BeforeIsTransitive(a[1..], b[1..], c[1..]);
    }
  }

  predicate IsLeast(m: string, s: set<string>) {
    m in s && forall x | x in s :: x == m || Before(m, x)
  }

  lemma {:induction false} LeastExists(s: set<string>) returns (m: string)
    requires s != {}
    ensures IsLeast(m, s)
  {
    var x :| x in s;
    if s - {x} == {} {
      m := x;
      assert s == {x};
    } else {
      var n := LeastExists(s - {x});
      BeforeIsTotal(x, n);
      m := if x == n || Before(x, n) then x else n;
      forall y | y in s
        ensures y == m || Before(m, y)
      {
        if y != x {
          assert y in s - {x};
          if y != n && m == x && x != n {
            BeforeIsTransitive(x, n, y);
          }
        }
      }
    }
  }

  lemma {:induction false} LeastIsUnique(m: string, n: string, s: set<string>)
    requires IsLeast(m, s) && IsLeast(n, s)
    ensures m == n
  {
    if m != n {
      BeforeIsStrict(m, n);
    }
  }

  predicate Ascending(r: seq<string>) {
    forall i, k | 0 <= i < k < |r| :: Before(r[i], r[k])
  }

  /** sorted: the elements of the set, each once, in ascending order. */
  function Sorted(s: set<string>): (r: seq<string>)
    ensures Ascending(r) && forall x :: x in r <==> x in s
    decreases |s|
  {
    if s == {} then []
    else
      assert exists m :: IsLeast(m, s) by { var m := LeastExists(s); }
      assert forall m, n | IsLeast(m, s) && IsLeast(n, s) :: m == n by {
        forall m, n | IsLeast(m, s) && IsLeast(n, s)
          ensures m == n
        {
          LeastIsUnique(m, n, s);
        }
      }
      var m :| IsLeast(m, s);
      var rest := Sorted(s - {m});
      assert forall x | x in rest :: Before(m, x);
      assert forall i | 0 <= i < |rest| :: rest[i] in rest;
      [m] + rest
  }

  // -------------------------------------------------------------- the walk

  /** The budget and what was found so far. */
  datatype State = State(bytes: int, nodes: int, truncated: bool, classes: set<Class>)

  predicate Spent(depth: nat, s: State) {
    depth > MAX_DEPTH || s.nodes <= 0 || s.bytes <= 0
  }

  /** detectInto. */
  function Detected(d: Detector, t: string): set<Class> {
    if |t| > MAX_STRING_BYTES then d(t[..MAX_STRING_BYTES]) else d(t)
  }

  /** One string under the budget. */
  function Leaf(d: Detector, t: string, s: State): State {
    var u := if |t| > s.bytes && s.bytes >= 0 then t[..s.bytes] else t;
    State(s.bytes - |u|, s.nodes, s.truncated || |t| > |u| || |u| > MAX_STRING_BYTES, s.classes + Detected(d, u))
  }

  function WalkText(d: Detector, t: string, depth: nat, s: State): State {
    if Spent(depth, s) then s.(truncated := true) else Leaf(d, t, s.(nodes := s.nodes - 1))
  }

  function Walk(d: Detector, v: Value, depth: nat, s: State): State
    decreases v
  {
    if Spent(depth, s) then s.(truncated := true)
    else
      var s1 := s.(nodes := s.nodes - 1);
      match v
      case Nil | Bool(_) => s1
      case Str(t) => Leaf(d, t, s1)
      case Num(t) => WalkText(d, t, depth, s1)
      case Int(t) => WalkText(d, t, depth, s1)
      case SizedInt(t) => WalkText(d, t, depth, s1)
      case List(_, items) => WalkAll(d, items, depth + 1, s1)
      case Object(_, _, items) => WalkAll(d, items, depth + 1, s1)
      case Unknown => s1.(truncated := true)
  }

  function WalkAll(d: Detector, vs: seq<Value>, depth: nat, s: State): State
    decreases vs
  {
    if vs == [] then s
    else Walk(d, vs[|vs| - 1], depth, WalkAll(d, vs[..|vs| - 1], depth, s))
  }

  /** The budget of one scan, updated in place. */
  class Budget {
    var bytes: int
    var nodes: int
    var truncated: bool
    var classes: set<Class>

    function Contents(): State
      reads this
    {
      State(bytes, nodes, truncated, classes)
    }

    constructor ()
      ensures Contents() == State(MAX_TOTAL_BYTES, MAX_NODES, false, {})
    {
      bytes, nodes, truncated, classes := MAX_TOTAL_BYTES, MAX_NODES, false, {};
    }

    method DetectInto(d: Detector, s: string) returns (complete: bool)
      modifies this`classes
      ensures classes == old(classes) + Detected(d, s)
      ensures complete <==> |s| <= MAX_STRING_BYTES
    {
      complete := true;
      var t := s;
      if |t| > MAX_STRING_BYTES {
        t := t[..MAX_STRING_BYTES];
        complete := false;
      }
      classes := classes + d(t);
    }

    method WalkString(d: Detector, s: string)
      requires bytes > 0
      modifies this
      ensures Contents() == Leaf(d, s, old(Contents()))
    {
      var t := s;
      if |t| > bytes {
        t := t[..bytes];
        truncated := true;
      }
      bytes := bytes - |t|;
      var complete := DetectInto(d, t);
      if !complete {
        truncated := true;
      }
    }

    method WalkItems(d: Detector, vs: seq<Value>, depth: nat)
      modifies this
      ensures Contents() == WalkAll(d, vs, depth, old(Contents()))
      decreases vs
    {
      for i := 0 to |vs|
        invariant Contents() == WalkAll(d, vs[..i], depth, old(Contents()))
      {
        assert vs[..i + 1][..i] == vs[..i];
        WalkValue(d, vs[i], depth);
      }
      assert vs[..|vs|] == vs;
    }

    /** walk. */
    method WalkValue(d: Detector, v: Value, depth: nat)
      modifies this
      ensures Contents() == Walk(d, v, depth, old(Contents()))
      decreases v
    {
      hide Leaf;
      if depth > MAX_DEPTH || nodes <= 0 || bytes <= 0 {
        truncated := true;
        return;
      }
      nodes := nodes - 1;
      match v
      case Nil | Bool(_) =>
      case Str(t) =>
        WalkString(d, t);
      case Num(t) =>
        WalkNumber(d, t, depth);
      case Int(t) =>
        WalkNumber(d, t, depth);
      case SizedInt(t) =>
        WalkNumber(d, t, depth);
      case List(_, items) =>
        WalkItems(d, items, depth + 1);
      case Object(_, _, items) =>
        WalkItems(d, items, depth + 1);
      case Unknown =>
        truncated := true;
    }

    /** The second call of walk, on the text of a number. */
    method WalkNumber(d: Detector, t: string, depth: nat)
      modifies this
      ensures Contents() == WalkText(d, t, depth, old(Contents()))
    {
      if depth > MAX_DEPTH || nodes <= 0 || bytes <= 0 {
        truncated := true;
        return;
      }
      nodes := nodes - 1;
      WalkString(d, t);
    }
  }

  const FULL := State(MAX_TOTAL_BYTES, MAX_NODES, false, {})

  /** Scan. */
  method Scan(d: Detector, v: Value) returns (classes: seq<Class>, complete: bool)
    ensures classes == Sorted(Walk(d, v, 0, FULL).classes) && (complete <==> !Walk(d, v, 0, FULL).truncated)
    ensures Ascending(classes) && (complete <==> Fits(Visits(v, 0)))
    ensures complete ==> forall c :: c in classes <==> c in AllClasses(d, v)
  {
    var b := new Budget();
    b.WalkValue(d, v, 0);
    ScanIsExact(d, v);
    return Sorted(b.classes), !b.truncated;
  }

  // -------------------------------------- what a complete scan has looked at

  /** One step of the walk: a node at a depth, and the text scanned there. */
  datatype Visit = Visit(depth: nat, text: Option<string>, supported: bool)

  /** Every node of v in the order of the walk. A number is visited twice. */
  function Visits(v: Value, depth: nat): (r: seq<Visit>)
    ensures |r| > 0
    decreases v
  {
    match v
    case Nil | Bool(_) => [Visit(depth, None, true)]
    case Str(t) => [Visit(depth, Some(t), true)]
    case Num(t) => [Visit(depth, None, true), Visit(depth, Some(t), true)]
    case Int(t) => [Visit(depth, None, true), Visit(depth, Some(t), true)]
    case SizedInt(t) => [Visit(depth, None, true), Visit(depth, Some(t), true)]
    case List(_, items) => [Visit(depth, None, true)] + VisitsAll(items, depth + 1)
    case Object(_, _, items) => [Visit(depth, None, true)] + VisitsAll(items, depth + 1)
    case Unknown => [Visit(depth, None, false)]
  }

  function VisitsAll(vs: seq<Value>, depth: nat): seq<Visit>
    decreases vs
  {
    if vs == [] then [] else VisitsAll(vs[..|vs| - 1], depth) + Visits(vs[|vs| - 1], depth)
  }

  /** The classes of every leaf of v, each scanned in full. Keys are not scanned. */
  function AllClasses(d: Detector, v: Value): set<Class>
    decreases v
  {
    match v
    case Nil | Bool(_) | Unknown => {}
    case Str(t) => d(t)
    case Num(t) => d(t)
    case Int(t) => d(t)
    case SizedInt(t) => d(t)
    case List(_, items) => AllClassesIn(d, items)
    case Object(_, _, items) => AllClassesIn(d, items)
  }

  function AllClassesIn(d: Detector, vs: seq<Value>): set<Class>
    decreases vs
  {
    if vs == [] then {} else AllClassesIn(d, vs[..|vs| - 1]) + AllClasses(d, vs[|vs| - 1])
  }

  function Size(x: Visit): nat {
    match x.text
    case None => 0
    case Some(t) => |t|
  }

  /** The bytes of all texts. */
  function Total(xs: seq<Visit>): nat {
    if xs == [] then 0 else Total(xs[..|xs| - 1]) + Size(xs[|xs| - 1])
  }

  /** A node within the depth, string and type limits. */
  predicate Within(x: Visit) {
    x.depth <= MAX_DEPTH && x.supported && Size(x) <= MAX_STRING_BYTES
  }

  /** Within the budgets that are left: at most this many nodes, at most this
      many bytes, and some bytes left when the last node is reached. */
  predicate FitsIn(xs: seq<Visit>, bytes: int, nodes: int) {
    && (forall i | 0 <= i < |xs| :: Within(xs[i]))
    && (xs != [] ==> |xs| <= nodes && Total(xs) <= bytes && Total(xs[..|xs| - 1]) < bytes)
  }

  predicate Fits(xs: seq<Visit>) {
    FitsIn(xs, MAX_TOTAL_BYTES, MAX_NODES)
  }

  /** The walk as a plain loop over the visits. */
  function One(d: Detector, x: Visit, s: State): State {
    if Spent(x.depth, s) then s.(truncated := true)
    else
      var s1 := s.(nodes := s.nodes - 1);
      if !x.supported then s1.(truncated := true)
      else
        match x.text
        case None => s1
        case Some(t) => Leaf(d, t, s1)
  }

  function Loop(d: Detector, xs: seq<Visit>, s: State): State {
    if xs == [] then s else One(d, xs[|xs| - 1], Loop(d, xs[..|xs| - 1], s))
  }

  lemma {:induction false} LoopAppend(d: Detector, xs: seq<Visit>, ys: seq<Visit>, s: State)
    ensures Loop(d, xs + ys, s) == Loop(d, ys, Loop(d, xs, s))
  {
    hide One;
    if ys == [] {
      assert xs + ys == xs;
    } else {
      LoopAppend(d, xs, ys[..|ys| - 1], s);
      assert (xs + ys)[..|xs + ys| - 1] == xs + ys[..|ys| - 1];
    }
  }

  lemma {:induction false} LoopOne(d: Detector, x: Visit, s: State)
    ensures Loop(d, [x], s) == One(d, x, s)
  {
    hide One;
    assert [x][..0] == [];
    assert Loop(d, [], s) == s;
  }

  lemma {:induction false} LoopTruncatedStays(d: Detector, xs: seq<Visit>, s: State)
    requires s.truncated
    ensures Loop(d, xs, s).truncated
  {
    if xs != [] {
      LoopTruncatedStays(d, xs[..|xs| - 1], s);
    }
  }

  lemma {:induction false} WalkTruncatedStays(d: Detector, v: Value, depth: nat, s: State)
    requires s.truncated
    ensures Walk(d, v, depth, s).truncated
    decreases v
  {
    if !Spent(depth, s) && (v.List? || v.Object?) {
      WalkAllTruncatedStays(d, v.items, depth + 1, s.(nodes := s.nodes - 1));
    }
  }

  lemma {:induction false} WalkAllTruncatedStays(d: Detector, vs: seq<Value>, depth: nat, s: State)
    requires s.truncated
    ensures WalkAll(d, vs, depth, s).truncated
    decreases vs
  {
    if vs != [] {
      WalkAllTruncatedStays(d, vs[..|vs| - 1], depth, s);
      WalkTruncatedStays(d, vs[|vs| - 1], depth, WalkAll(d, vs[..|vs| - 1], depth, s));
    }
  }

  lemma {:induction false} LoopTwo(d: Detector, x: Visit, y: Visit, s: State)
    ensures Loop(d, [x, y], s) == One(d, y, One(d, x, s))
  {
    LoopOne(d, x, s);
    assert [x, y][..1] == [x];
  }

  lemma {:induction false} LoopContainer(d: Detector, depth: nat, ys: seq<Visit>, s: State)
    ensures Loop(d, [Visit(depth, None, true)] + ys, s) ==
            Loop(d, ys, if Spent(depth, s) then s.(truncated := true) else s.(nodes := s.nodes - 1))
  {
    LoopAppend(d, [Visit(depth, None, true)], ys, s);
    LoopOne(d, Visit(depth, None, true), s);
  }

  /** Unless both are cut short, the walk of the tree and the loop over its
      visits end in one state. */
  lemma {:induction false} WalkIsLoop(d: Detector, v: Value, depth: nat, s: State)
    requires !Walk(d, v, depth, s).truncated || !Loop(d, Visits(v, depth), s).truncated
    ensures Walk(d, v, depth, s) == Loop(d, Visits(v, depth), s)
    decreases v
  {
    match v
    case Nil | Bool(_) => LoopOne(d, Visit(depth, None, true), s);
    case Unknown => LoopOne(d, Visit(depth, None, false), s);
    case Str(t) => LoopOne(d, Visit(depth, Some(t), true), s);
    case Num(t) => LoopTwo(d, Visit(depth, None, true), Visit(depth, Some(t), true), s);
    case Int(t) => LoopTwo(d, Visit(depth, None, true), Visit(depth, Some(t), true), s);
    case SizedInt(t) => LoopTwo(d, Visit(depth, None, true), Visit(depth, Some(t), true), s);
    case List(_, items) => WalkItemsIsLoop(d, v, depth, s);
    case Object(_, _, items) => WalkItemsIsLoop(d, v, depth, s);
  }

  lemma {:induction false} WalkItemsIsLoop(d: Detector, v: Value, depth: nat, s: State)
    requires v.List? || v.Object?
    requires !Walk(d, v, depth, s).truncated || !Loop(d, Visits(v, depth), s).truncated
    ensures Walk(d, v, depth, s) == Loop(d, Visits(v, depth), s)
    decreases v, 0
  {
    hide Loop, WalkAll, VisitsAll;
    var ys := VisitsAll(v.items, depth + 1);
    LoopContainer(d, depth, ys, s);
    if !Spent(depth, s) {
      WalkAllIsLoop(d, v.items, depth + 1, s.(nodes := s.nodes - 1));
    } else {
      LoopTruncatedStays(d, ys, s.(truncated := true));
    }
  }

  lemma {:induction false} WalkAllIsLoop(d: Detector, vs: seq<Value>, depth: nat, s: State)
    requires !WalkAll(d, vs, depth, s).truncated || !Loop(d, VisitsAll(vs, depth), s).truncated
    ensures WalkAll(d, vs, depth, s) == Loop(d, VisitsAll(vs, depth), s)
    decreases vs
  {
    if vs != [] {
      var init, last := vs[..|vs| - 1], vs[|vs| - 1];
      var w, l := WalkAll(d, init, depth, s), Loop(d, VisitsAll(init, depth), s);
      LoopAppend(d, VisitsAll(init, depth), Visits(last, depth), s);
      if w.truncated {
        WalkTruncatedStays(d, last, depth, w);
      }
      if l.truncated {
        LoopTruncatedStays(d, Visits(last, depth), l);
      }
      WalkAllIsLoop(d, init, depth, s);
      WalkIsLoop(d, last, depth, w);
    }
  }

  /** The classes of the texts visited. */
  function Found(d: Detector, xs: seq<Visit>): set<Class> {
    if xs == [] then {}
    else Found(d, xs[..|xs| - 1]) + match xs[|xs| - 1].text { case None => {} case Some(t) => d(t) }
  }

  lemma {:induction false} FoundAppend(d: Detector, xs: seq<Visit>, ys: seq<Visit>)
    ensures Found(d, xs + ys) == Found(d, xs) + Found(d, ys)
  {
    if ys == [] {
      assert xs + ys == xs;
    } else {
      FoundAppend(d, xs, ys[..|ys| - 1]);
      assert (xs + ys)[..|xs + ys| - 1] == xs + ys[..|ys| - 1];
    }
  }

  lemma {:induction false} FoundOne(d: Detector, x: Visit)
    ensures Found(d, [x]) == match x.text { case None => {} case Some(t) => d(t) }
  {
    assert [x][..0] == [];
    assert Found(d, []) == {};
  }

  lemma {:induction false} FoundTwo(d: Detector, x: Visit, y: Visit)
    requires x.text.None? && y.text.Some?
    ensures Found(d, [x, y]) == d(y.text.value)
  {
    FoundOne(d, x);
    assert [x, y][..1] == [x];
  }

  /** The visits meet exactly the leaves. */
  lemma {:induction false} FoundIsAll(d: Detector, v: Value, depth: nat)
    ensures Found(d, Visits(v, depth)) == AllClasses(d, v)
    decreases v
  {
    hide Found;
    match v
    case Nil | Bool(_) => FoundOne(d, Visit(depth, None, true));
    case Unknown => FoundOne(d, Visit(depth, None, false));
    case Str(t) => FoundOne(d, Visit(depth, Some(t), true));
    case Num(t) => FoundTwo(d, Visit(depth, None, true), Visit(depth, Some(t), true));
    case Int(t) => FoundTwo(d, Visit(depth, None, true), Visit(depth, Some(t), true));
    case SizedInt(t) => FoundTwo(d, Visit(depth, None, true), Visit(depth, Some(t), true));
    case List(_, items) =>
      FoundIsAllItems(d, items, depth + 1);
      FoundAppend(d, [Visit(depth, None, true)], VisitsAll(items, depth + 1));
      FoundOne(d, Visit(depth, None, true));
    case Object(_, _, items) =>
      FoundIsAllItems(d, items, depth + 1);
      FoundAppend(d, [Visit(depth, None, true)], VisitsAll(items, depth + 1));
      FoundOne(d, Visit(depth, None, true));
  }

  lemma {:induction false} FoundIsAllItems(d: Detector, vs: seq<Value>, depth: nat)
    ensures Found(d, VisitsAll(vs, depth)) == AllClassesIn(d, vs)
    decreases vs
  {
    if vs != [] {
      var init, last := vs[..|vs| - 1], vs[|vs| - 1];
      FoundIsAllItems(d, init, depth);
      FoundIsAll(d, last, depth);
      FoundAppend(d, VisitsAll(init, depth), Visits(last, depth));
    }
  }

  lemma {:induction false} TotalAppendOne(xs: seq<Visit>)
    requires xs != []
    ensures Total(xs) >= Total(xs[..|xs| - 1])
    ensures |xs| > 1 ==> Total(xs[..|xs| - 1]) >= Total(xs[..|xs| - 1][..|xs| - 2])
  {
  }

  lemma {:induction false} FitsOneMore(xs: seq<Visit>, bytes: int, nodes: int)
    requires xs != []
    ensures var init, last := xs[..|xs| - 1], xs[|xs| - 1];
            FitsIn(xs, bytes, nodes) <==>
            FitsIn(init, bytes, nodes) && Within(last) && |init| < nodes && Total(init) < bytes &&
              Total(init) + Size(last) <= bytes
  {
    hide Within, Size;
    TotalAppendOne(xs);
    var init := xs[..|xs| - 1];
    if FitsIn(xs, bytes, nodes) {
      assert forall i | 0 <= i < |init| :: Within(xs[i]);
    }
  }

  /** The loop is cut short exactly when its visits do not fit the budgets; if
      not, it has spent exactly what they cost and found exactly their classes. */
  lemma {:induction false} LoopExact(d: Detector, xs: seq<Visit>, s: State)
    requires !s.truncated
    ensures !Loop(d, xs, s).truncated <==> FitsIn(xs, s.bytes, s.nodes)
    ensures FitsIn(xs, s.bytes, s.nodes) ==>
              Loop(d, xs, s) == State(s.bytes - Total(xs), s.nodes - |xs|, false, s.classes + Found(d, xs))
  {
    if xs != [] {
      var init, last := xs[..|xs| - 1], xs[|xs| - 1];
      LoopExact(d, init, s);
      FitsOneMore(xs, s.bytes, s.nodes);
      var before := Loop(d, init, s);
      if before.truncated {
        LoopOneStays(d, last, before);
      } else {
        hide FitsIn;
        assert Total(xs) == Total(init) + Size(last);
      }
    }
  }

  lemma {:induction false} LoopOneStays(d: Detector, x: Visit, s: State)
    requires s.truncated
    ensures One(d, x, s).truncated
  {
  }

  /** Scan reports complete exactly when the value fits the depth, node, byte,
      string and type limits, and then its classes are exactly those of full
      detection over every leaf. */
  lemma {:induction false} ScanIsExact(d: Detector, v: Value)
    ensures var s := Walk(d, v, 0, FULL);
            && (!s.truncated <==> Fits(Visits(v, 0)))
            && (!s.truncated ==> s.classes == AllClasses(d, v))
  {
    LoopExact(d, Visits(v, 0), FULL);
    FoundIsAll(d, v, 0);
    if !Walk(d, v, 0, FULL).truncated || !Loop(d, Visits(v, 0), FULL).truncated {
      WalkIsLoop(d, v, 0, FULL);
    }
  }

  /** Budgets only shrink and never go below zero, and found classes are kept,
      cut short or not. */
  predicate Shrinks(s: State, t: State) {
    0 <= t.bytes <= s.bytes && 0 <= t.nodes <= s.nodes && s.classes <= t.classes && (s.truncated ==> t.truncated)
  }

  lemma {:induction false} BudgetNeverNegative(d: Detector, v: Value, depth: nat, s: State)
    requires s.bytes >= 0 && s.nodes >= 0
    ensures Shrinks(s, Walk(d, v, depth, s))
    decreases v
  {
    if !Spent(depth, s) && (v.List? || v.Object?) {
      BudgetNeverNegativeAll(d, v.items, depth + 1, s.(nodes := s.nodes - 1));
    }
  }

  lemma {:induction false} BudgetNeverNegativeAll(d: Detector, vs: seq<Value>, depth: nat, s: State)
    requires s.bytes >= 0 && s.nodes >= 0
    ensures Shrinks(s, WalkAll(d, vs, depth, s))
    decreases vs
  {
    if vs != [] {
      BudgetNeverNegativeAll(d, vs[..|vs| - 1], depth, s);
      BudgetNeverNegative(d, vs[|vs| - 1], depth, WalkAll(d, vs[..|vs| - 1], depth, s));
    }
  }

  // ------------------------------------------------------------- leaves

  /** t is the text of some leaf of v, at any depth. */
  predicate HasLeaf(v: Value, t: string)
    decreases v
  {
    match v
    case Nil | Bool(_) | Unknown => false
    case Str(u) => t == u
    case Num(u) => t == u
    case Int(u) => t == u
    case SizedInt(u) => t == u
    case List(_, items) => AnyHasLeaf(items, t)
    case Object(_, _, items) => AnyHasLeaf(items, t)
  }

  predicate AnyHasLeaf(vs: seq<Value>, t: string)
    decreases vs
  {
    vs != [] && (AnyHasLeaf(vs[..|vs| - 1], t) || HasLeaf(vs[|vs| - 1], t))
  }

  /** No class of any leaf is missing from the classes of the value. */
  lemma {:induction false} LeafClassesFound(d: Detector, v: Value, t: string)
    requires HasLeaf(v, t)
    ensures d(t) <= AllClasses(d, v)
    decreases v
  {
    if v.List? || v.Object? {
      LeafClassesFoundIn(d, v.items, t);
    }
  }

  lemma {:induction false} LeafClassesFoundIn(d: Detector, vs: seq<Value>, t: string)
    requires AnyHasLeaf(vs, t)
    ensures d(t) <= AllClassesIn(d, vs)
    decreases vs
  {
    if AnyHasLeaf(vs[..|vs| - 1], t) {
      LeafClassesFoundIn(d, vs[..|vs| - 1], t);
    } else {
      LeafClassesFound(d, vs[|vs| - 1], t);
    }
  }

  /** The texts of a value are its own text, or those of its items. */
  lemma {:induction false} LeavesOf(v: Value, t: string)
    ensures v.Str? || v.Num? || v.Int? || v.SizedInt? ==> (HasLeaf(v, t) <==> t == v.text)
    ensures v.List? || v.Object? ==> (HasLeaf(v, t) <==> exists i | 0 <= i < |v.items| :: HasLeaf(v.items[i], t))
  {
    if v.List? || v.Object? {
      LeavesIn(v.items, t);
    }
  }

  lemma {:induction false} LeavesIn(vs: seq<Value>, t: string)
    ensures AnyHasLeaf(vs, t) <==> exists i | 0 <= i < |vs| :: HasLeaf(vs[i], t)
  {
    hide HasLeaf;
    if vs != [] {
      LeavesIn(vs[..|vs| - 1], t);
      assert forall i | 0 <= i < |vs| - 1 :: vs[..|vs| - 1][i] == vs[i];
    }
  }

  /** The classes of a value are exactly those of its texts. */
  lemma {:induction false} ClassesAreOfLeaves(d: Detector, v: Value, c: Class)
    ensures c in AllClasses(d, v) <==> exists t :: HasLeaf(v, t) && c in d(t)
    decreases v
  {
    forall t | HasLeaf(v, t)
      ensures d(t) <= AllClasses(d, v)
    {
      LeafClassesFound(d, v, t);
    }
    if c in AllClasses(d, v) {
      if v.List? || v.Object? {
        var t := ClassHasLeafIn(d, v.items, c);
        assert HasLeaf(v, t);
      } else {
        assert HasLeaf(v, v.text);
      }
    }
  }

  lemma {:induction false} ClassHasLeafIn(d: Detector, vs: seq<Value>, c: Class) returns (t: string)
    requires c in AllClassesIn(d, vs)
    ensures AnyHasLeaf(vs, t) && c in d(t)
    decreases vs
  {
    var last := vs[|vs| - 1];
    if c in AllClasses(d, last) {
      ClassesAreOfLeaves(d, last, c);
      hide AllClasses;
      t :| HasLeaf(last, t) && c in d(t);
    } else {
      t := ClassHasLeafIn(d, vs[..|vs| - 1], c);
    }
  }
}
