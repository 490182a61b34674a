/** pkg/dataset/store.go: the append-only approvals.jsonl and its index. */
module DatasetStore {
  import opened Text
  import opened Dataset

  // ---------------------------------------------------------------- lines

  /** JSON text of an example. */
  datatype Json = Json(marshal: Example -> Option<string>, unmarshal: string -> Option<Example>)

  /** What the JSON library promises: a marshalled object is one non-empty line
      in braces, and unmarshalling gives the example back. */
  ghost predicate Lawful(j: Json) {
    forall ex :: j.marshal(ex).Some? ==> LineOf(j, ex)
  }

  ghost predicate LineOf(j: Json, ex: Example)
    requires j.marshal(ex).Some?
  {
    var line := j.marshal(ex).value;
    && '\n' !in line
    && |line| >= 2 && line[0] == '{' && line[|line| - 1] == '}'
    && j.unmarshal(line) == Some(ex)
  }

  /** One past the last newline: bytes.LastIndexByte(data, '\n') + 1. */
  function Keep(data: string): (n: nat)
    ensures n <= |data|
  {
    if data == "" then 0
    else if data[|data| - 1] == '\n' then |data|
    else Keep(data[..|data| - 1])
  }

  /** bytes.Split at newlines: one more piece than there are newlines. */
  function Split(data: string): (p: seq<string>)
    ensures |p| > 0
    decreases |data|
  {
    if data == "" then [""]
    else if data[|data| - 1] == '\n' then Split(data[..|data| - 1]) + [""]
    else
      var p := Split(data[..|data| - 1]);
      p[|p| - 1 := p[|p| - 1] + [data[|data| - 1]]]
  }

  predicate Marshals(j: Json, exs: seq<Example>) {
    forall i | 0 <= i < |exs| :: j.marshal(exs[i]).Some?
  }

  /** The file that holds exactly these examples. */
  lemma {:induction false} JoinLastGrows(p: seq<string>, t: string, sep: string)
    requires p != []
    ensures Join(p[|p| - 1 := p[|p| - 1] + t], sep) == Join(p, sep) + t
  {
    if |p| > 1 {
      var q := p[|p| - 1 := p[|p| - 1] + t];
      assert q[1..] == p[1..][|p| - 2 := p[1..][|p| - 2] + t];
      JoinLastGrows(p[1..], t, sep);
    }
  }

  lemma {:induction false} JoinOneMore(p: seq<string>, x: string, sep: string)
    requires p != []
    ensures Join(p + [x], sep) == Join(p, sep) + sep + x
  {
    if |p| > 1 {
      assert (p + [x])[1..] == p[1..] + [x];
      JoinOneMore(p[1..], x, sep);
    } else {
      assert (p + [x])[1..] == [x];
    }
  }

  /** The pieces hold no newline, and joined with newlines they are the file. */
  lemma {:induction false} SplitJoins(data: string)
    ensures Join(Split(data), "\n") == data
    ensures forall i | 0 <= i < |Split(data)| :: '\n' !in Split(data)[i]
    decreases |data|
  {
    if data != "" {
      var init, last := data[..|data| - 1], data[|data| - 1];
      SplitJoins(init);
      assert data == init + [last];
      if last == '\n' {
        JoinOneMore(Split(init), "", "\n");
      } else {
        JoinLastGrows(Split(init), [last], "\n");
      }
    }
  }

  function Render(j: Json, exs: seq<Example>): string
    requires Marshals(j, exs)
  {
    if exs == [] then ""
    else Render(j, exs[..|exs| - 1]) + j.marshal(exs[|exs| - 1]).value + "\n"
  }

  function Lines(j: Json, exs: seq<Example>): seq<string>
    requires Marshals(j, exs)
  {
    seq(|exs|, i requires 0 <= i < |exs| => j.marshal(exs[i]).value)
  }

  lemma {:induction false} SplitLine(data: string, line: string)
    requires '\n' !in line && Split(data)[|Split(data)| - 1] == ""
    ensures Split(data + line) == Split(data)[..|Split(data)| - 1] + [line]
    decreases |line|
  {
    var p := Split(data);
    if line == "" {
      assert data + line == data;
    } else {
      var init := line[..|line| - 1];
      SplitLine(data, init);
      assert (data + line)[..|data + line| - 1] == data + init;
      assert init + [line[|line| - 1]] == line;
    }
  }

  /** Splitting a rendered file gives its lines and one empty piece. */
  lemma {:induction false} SplitRender(j: Json, exs: seq<Example>)
    requires Lawful(j) && Marshals(j, exs)
    ensures Split(Render(j, exs)) == Lines(j, exs) + [""]
    ensures Keep(Render(j, exs)) == |Render(j, exs)|
  {
    if exs != [] {
      var init, last := exs[..|exs| - 1], exs[|exs| - 1];
      SplitRender(j, init);
      assert LineOf(j, last);
      var line := j.marshal(last).value;
      SplitLine(Render(j, init), line);
      var text := Render(j, init) + line;
      assert Render(j, exs) == text + "\n" && (text + "\n")[..|text|] == text;
      assert Split(text) == Lines(j, init) + [line];
      assert Lines(j, exs) == Lines(j, init) + [line];
    }
  }

  /** A torn tail without a newline is exactly what Keep cuts. */
  lemma {:induction false} KeepCutsTail(data: string, tail: string)
    requires Keep(data) == |data| && '\n' !in tail
    ensures Keep(data + tail) == |data|
    decreases |tail|
  {
    if tail == "" {
      assert data + tail == data;
    } else {
      assert (data + tail)[..|data + tail| - 1] == data + tail[..|tail| - 1];
      KeepCutsTail(data, tail[..|tail| - 1]);
    }
  }

  // ------------------------------------------------------------ the index

  datatype Index = Index(seqs: set<nat>, ids: set<string>)

  function IndexOf(exs: seq<Example>): Index {
    Index(set i | 0 <= i < |exs| :: exs[i].receiptSeq, set i | 0 <= i < |exs| :: exs[i].exampleId)
  }

  /** No two examples share a receipt or a pending id. */
  predicate Distinct(exs: seq<Example>) {
    forall i, k | 0 <= i < k < |exs| :: exs[i].receiptSeq != exs[k].receiptSeq && exs[i].exampleId != exs[k].exampleId
  }

  lemma {:induction false} IndexOneMore(exs: seq<Example>, ex: Example)
    ensures IndexOf(exs + [ex]) == Index(IndexOf(exs).seqs + {ex.receiptSeq}, IndexOf(exs).ids + {ex.exampleId})
    ensures Distinct(exs) && ex.receiptSeq !in IndexOf(exs).seqs && ex.exampleId !in IndexOf(exs).ids ==>
            Distinct(exs + [ex])
  {
    var grown := exs + [ex];
    assert grown[|exs|] == ex;
    assert forall i | 0 <= i < |exs| :: grown[i] == exs[i];
    assert IndexOf(grown).seqs == IndexOf(exs).seqs + {ex.receiptSeq};
    assert IndexOf(grown).ids == IndexOf(exs).ids + {ex.exampleId};
  }

  /** Reading the pieces of a file in order, skipping empty ones. */
  function ReadIndex(j: Json, pieces: seq<string>): Option<Index> {
    if pieces == [] then Some(Index({}, {}))
    else
      match ReadIndex(j, pieces[..|pieces| - 1])
      case None => None
      case Some(ix) =>
        var line := pieces[|pieces| - 1];
        if line == "" then Some(ix)
        else
          match j.unmarshal(line)
          case None => None
          case Some(ex) => Some(Index(ix.seqs + {ex.receiptSeq}, ix.ids + {ex.exampleId}))
  }

  lemma {:induction false} ReadIndexOfLines(j: Json, exs: seq<Example>)
    requires Lawful(j) && Marshals(j, exs)
    ensures ReadIndex(j, Lines(j, exs)) == Some(IndexOf(exs))
  {
    if exs == [] {
      assert IndexOf(exs) == Index({}, {});
    } else {
      var init, last := exs[..|exs| - 1], exs[|exs| - 1];
      ReadIndexOfLines(j, init);
      assert LineOf(j, last);
      var lines := Lines(j, exs);
      assert lines[..|lines| - 1] == Lines(j, init) && lines[|lines| - 1] == j.marshal(last).value;
      IndexOneMore(init, last);
      assert exs == init + [last];
    }
  }

  // ------------------------------------------------------------ the store

  /** What one write and sync did: how many bytes reached the file, and whether
      the sync succeeded. */
  datatype Io = Io(written: nat, synced: bool)

  /** The state of one opened store. */
  datatype State = State(index: Index, broken: bool)

  type Lookup = nat -> Option<(Receipt, string)>

  /** Open on a file with these bytes: the index and what is left of the file.
      None when a kept line does not parse. */
  function Opened(j: Json, data: string): Option<State> {
    match ReadIndex(j, Split(data[..Keep(data)]))
    case None => None
    case Some(ix) => Some(State(ix, false))
  }

  /** Append, as a function of the file, the store and the I/O outcome. */
  function Appended(j: Json, rs: Receipts, lookup: Lookup, data: string, s: State, ex: Example,
                    io: Io): (string, State, Option<Error>) {
    match lookup(ex.receiptSeq)
    case None => (data, s, Some(Unbound))
    case Some((r, record)) =>
      match Validate(rs, ex, r, record)
      case Some(e) => (data, s, Some(e))
      case None =>
        match j.marshal(ex)
        case None => (data, s, Some(Unparseable))
        case Some(line) =>
          if s.broken then (data, s, Some(Broken))
          else if ex.receiptSeq in s.index.seqs || ex.exampleId in s.index.ids then (data, s, Some(Duplicate))
          else
            var text := line + "\n";
            if io.written < |text| then (data + text[..io.written], s.(broken := true), Some(WriteFailed))
            else if !io.synced then (data + text, s.(broken := true), Some(WriteFailed))
            else (data + text, State(Index(s.index.seqs + {ex.receiptSeq}, s.index.ids + {ex.exampleId}), false), None)
  }

  /** approvals.jsonl. */
  class File {
    var data: string

    constructor ()
      ensures data == ""
    {
      data := "";
    }

    /** An appending write that may stop early. */
    method Write(text: string, written: nat) returns (ok: bool)
      modifies this
      ensures ok <==> written >= |text|
      ensures data == old(data) + if ok then text else text[..written]
    {
      if written < |text| {
        data := data + text[..written];
        return false;
      }
      data := data + text;
      return true;
    }

    method Truncate(n: nat)
      requires n <= |data|
      modifies this
      ensures data == old(data)[..n]
    {
      data := data[..n];
    }
  }

  class Store {
    const file: File
    var seqs: set<nat>
    var ids: set<string>
    var broken: bool

    function Contents(): State
      reads this
    {
      State(Index(seqs, ids), broken)
    }

    constructor (file: File, seqs: set<nat>, ids: set<string>)
      ensures this.file == file && Contents() == State(Index(seqs, ids), false)
    {
      this.file, this.seqs, this.ids, this.broken := file, seqs, ids, false;
    }

    /** Store.Append. */
    method Append(j: Json, rs: Receipts, lookup: Lookup, ex: Example, io: Io) returns (err: Option<Error>)
      modifies this, file
      ensures (file.data, Contents(), err) == Appended(j, rs, lookup, old(file.data), old(Contents()), ex, io)
    {
      var found := lookup(ex.receiptSeq);
      if found.None? {
        return Some(Unbound);
      }
      var (r, record) := found.value;
      var invalid := Validate(rs, ex, r, record);
      if invalid.Some? {
        return invalid;
      }
      var line := j.marshal(ex);
      if line.None? {
        return Some(Unparseable);
      }
      if broken {
        return Some(Broken);
      }
      if ex.receiptSeq in seqs || ex.exampleId in ids {
        return Some(Duplicate);
      }
      var ok := file.Write(line.value + "\n", io.written);
      if ok {
        ok := io.synced;
      }
      if !ok {
        broken := true;
        return Some(WriteFailed);
      }
      seqs, ids := seqs + {ex.receiptSeq}, ids + {ex.exampleId};
      return None;
    }
  }

  /** What the file system does for one Open: whether the file can be read (or is
      known not to exist), cut, and opened for appending. */
  datatype OpenIo = OpenIo(readable: bool, cuts: bool, appends: bool)

  const WORKS := OpenIo(true, true, true)

  /** The file can be read, parses, and has no torn tail that cannot be cut. */
  predicate Repairs(j: Json, data: string, io: OpenIo) {
    io.readable && Opened(j, data).Some? && (io.cuts || Keep(data) == |data|)
  }

  /** Open. */
  method Open(j: Json, file: File, io: OpenIo) returns (s: Option<Store>)
    modifies file
    ensures s.Some? <==> Repairs(j, old(file.data), io) && io.appends
    ensures s.Some? ==> s.value.file == file && Some(s.value.Contents()) == Opened(j, old(file.data)) && fresh(s.value)
    ensures file.data == if Repairs(j, old(file.data), io) then old(file.data)[..Keep(old(file.data))]
            else old(file.data)
  {
    if !io.readable {
      return None;
    }
    var data := file.data;
    var keep := Keep(data);
    var pieces := Split(data[..keep]);
    var seqs, ids := {}, {};
    for i := 0 to |pieces|
      invariant ReadIndex(j, pieces[..i]) == Some(Index(seqs, ids))
      invariant ReadIndex(j, pieces).Some? ==> ReadIndex(j, pieces[..i]).Some?
    {
      assert pieces[..i + 1][..i] == pieces[..i];
      if |pieces[i]| == 0 {
        continue;
      }
      var ex := j.unmarshal(pieces[i]);
      if ex.None? {
        ReadIndexStops(j, pieces, i + 1);
        return None;
      }
      seqs, ids := seqs + {ex.value.receiptSeq}, ids + {ex.value.exampleId};
    }
    assert pieces[..|pieces|] == pieces;
    if keep < |data| {
      if !io.cuts {
        return None;
      }
      file.Truncate(keep);
    }
    assert file.data == data[..keep];
    if !io.appends {
      return None;
    }
    var store := new Store(file, seqs, ids);
    s := Some(store);
  }

  /** One unreadable line stops the whole reading. */
  lemma {:induction false} ReadIndexStops(j: Json, pieces: seq<string>, n: nat)
    requires n <= |pieces| && ReadIndex(j, pieces[..n]).None?
    ensures ReadIndex(j, pieces).None?
  {
    if n < |pieces| {
      assert pieces[..|pieces| - 1][..n] == pieces[..n];
      ReadIndexStops(j, pieces[..|pieces| - 1], n);
    } else {
      assert pieces[..n] == pieces;
    }
  }

  // ---------------------------------------------------- runs with crashes

  /** The disk, how much of it is known to be synced, the running store if any,
      and every acknowledged example. */
  datatype World = World(data: string, synced: nat, store: Option<State>, acked: seq<Example>)

  /** A process can crash at any time, and a power loss can also drop any part
      of the file that no successful sync covered. */
  datatype Event =
    | Append(ex: Example, io: Io)
    | Crash
    | PowerLoss(kept: nat)
    | Reopen(opening: OpenIo)

  function After(j: Json, rs: Receipts, lookup: Lookup, w: World, ev: Event): World {
    match ev
    case Crash => w.(store := None)
    case PowerLoss(kept) =>
      if w.synced <= kept <= |w.data| then w.(data := w.data[..kept], store := None) else w.(store := None)
    case Append(ex, io) =>
      if w.store.None? then w
      else
        var (data, s, err) := Appended(j, rs, lookup, w.data, w.store.value, ex, io);
        if err.None? then World(data, |data|, Some(s), w.acked + [ex])
        else w.(data := data, store := Some(s))
    case Reopen(io) =>
      if !Repairs(j, w.data, io) then w.(store := None)
      else w.(data := w.data[..Keep(w.data)], store := if io.appends then Opened(j, w.data) else None)
  }

  function Run(j: Json, rs: Receipts, lookup: Lookup, evs: seq<Event>): World {
    if evs == [] then World("", 0, None, [])
    else After(j, rs, lookup, Run(j, rs, lookup, evs[..|evs| - 1]), evs[|evs| - 1])
  }

  /** Every example is bound to the receipt and record the lookup gives for it. */
  predicate AllBound(rs: Receipts, lookup: Lookup, exs: seq<Example>) {
    forall i | 0 <= i < |exs| :: BoundOne(rs, lookup, exs[i])
  }

  predicate BoundOne(rs: Receipts, lookup: Lookup, ex: Example) {
    && lookup(ex.receiptSeq).Some?
    && BoundTo(rs, ex, lookup(ex.receiptSeq).value.0, lookup(ex.receiptSeq).value.1)
  }

  /** The disk holds exs as whole lines and then a torn tail, of which the first
      m lines are synced and hold everything acknowledged; the index of a
      running store is the index of exs. */
  ghost predicate Holds(j: Json, rs: Receipts, lookup: Lookup, w: World, exs: seq<Example>, m: nat, tail: string) {
    && Marshals(j, exs) && Distinct(exs) && AllBound(rs, lookup, exs)
    && w.data == Render(j, exs) + tail && '\n' !in tail
    && m <= |exs| && w.synced == |Render(j, exs[..m])|
    && (forall a | a in w.acked :: a in exs[..m])
    && (w.store.Some? && !w.store.value.broken ==> tail == "" && w.store.value.index == IndexOf(exs))
  }

  lemma {:induction false} RenderOneMore(j: Json, exs: seq<Example>, ex: Example)
    requires Marshals(j, exs) && j.marshal(ex).Some?
    ensures Marshals(j, exs + [ex])
    ensures Render(j, exs + [ex]) == Render(j, exs) + (j.marshal(ex).value + "\n")
  {
    var grown := exs + [ex];
    assert grown[..|exs|] == exs && grown[|exs|] == ex;
  }

  lemma {:induction false} OpenedRendered(j: Json, exs: seq<Example>, tail: string)
    requires Lawful(j) && Marshals(j, exs) && '\n' !in tail
    ensures var data := Render(j, exs) + tail;
            && Keep(data) == |Render(j, exs)| && data[..Keep(data)] == Render(j, exs)
            && Opened(j, data) == Some(State(IndexOf(exs), false))
  {
    SplitRender(j, exs);
    KeepCutsTail(Render(j, exs), tail);
    ReadIndexOfLines(j, exs);
    var pieces := Lines(j, exs) + [""];
    assert pieces[..|pieces| - 1] == Lines(j, exs);
  }

  /** Any prefix of a rendered file is a rendered file and a torn tail, with at
      least the lines that fit. */
  lemma {:induction false} PrefixOfRender(j: Json, exs: seq<Example>, n: nat, m: nat) returns (k: nat, tail: string)
    requires Lawful(j) && Marshals(j, exs) && n <= |Render(j, exs)|
    requires m <= |exs| && |Render(j, exs[..m])| <= n
    ensures m <= k <= |exs| && '\n' !in tail
    ensures Render(j, exs)[..n] == Render(j, exs[..k]) + tail
  {
    if n == |Render(j, exs)| {
      k, tail := |exs|, "";
      assert exs[..k] == exs;
    } else {
      var init, last := exs[..|exs| - 1], exs[|exs| - 1];
      assert exs[..|exs|] == exs;
      assert init[..m] == exs[..m];
      if n <= |Render(j, init)| {
        k, tail := PrefixOfRender(j, init, n, m);
        assert init[..k] == exs[..k];
        assert Render(j, exs)[..n] == Render(j, init)[..n];
      } else {
        assert LineOf(j, last);
        k, tail := |init|, j.marshal(last).value[..n - |Render(j, init)|];
      }
    }
  }

  /** Writing a fresh line and its newline in full. */
  lemma {:induction false} WholeLineHolds(j: Json, rs: Receipts, lookup: Lookup, w: World, exs: seq<Example>, m: nat,
                                          tail: string, ex: Example, synced: bool)
    requires Lawful(j) && Holds(j, rs, lookup, w, exs, m, tail)
    requires w.store.Some? && !w.store.value.broken && j.marshal(ex).Some? && BoundOne(rs, lookup, ex)
    requires ex.receiptSeq !in IndexOf(exs).seqs && ex.exampleId !in IndexOf(exs).ids
    ensures var data := w.data + (j.marshal(ex).value + "\n");
            if synced then
              Holds(j, rs, lookup, World(data, |data|, Some(State(IndexOf(exs + [ex]), false)), w.acked + [ex]),
                    exs + [ex], |exs| + 1, "")
            else
              Holds(j, rs, lookup, World(data, w.synced, Some(w.store.value.(broken := true)), w.acked), exs + [ex], m,
                    "")
  {
    RenderOneMore(j, exs, ex);
    IndexOneMore(exs, ex);
    hide IndexOf, Validate, BoundTo, BoundOne, Render, Lawful;
    var grown := exs + [ex];
    assert grown[..m] == exs[..m] && grown[..|exs| + 1] == grown;
    assert w.data == Render(j, exs);
    assert Render(j, grown) + "" == w.data + (j.marshal(ex).value + "\n");
    assert AllBound(rs, lookup, grown);
    assert forall a | a in exs[..m] :: a in grown;
  }

  /** The store writes exactly when it is not broken and the example is bound,
      marshals, and is new to the index. */
  predicate Writes(j: Json, rs: Receipts, lookup: Lookup, s: State, ex: Example) {
    && BoundOne(rs, lookup, ex) && j.marshal(ex).Some?
    && !s.broken && ex.receiptSeq !in s.index.seqs && ex.exampleId !in s.index.ids
  }

  lemma {:induction false} AppendCases(j: Json, rs: Receipts, lookup: Lookup, data: string, s: State, ex: Example,
                                       io: Io)
    ensures var (data', s', err) := Appended(j, rs, lookup, data, s, ex, io);
            if !Writes(j, rs, lookup, s, ex) then data' == data && s' == s && err.Some?
            else
              var text := j.marshal(ex).value + "\n";
              if io.written < |text| || !io.synced then
                data' == data + (if io.written < |text| then text[..io.written] else text) &&
                  s' == s.(broken := true) && err.Some?
              else
                data' == data + text && err.None?
                && s' == State(Index(s.index.seqs + {ex.receiptSeq}, s.index.ids + {ex.exampleId}), false)
  {
    if lookup(ex.receiptSeq).Some? {
      ValidateIff(rs, ex, lookup(ex.receiptSeq).value.0, lookup(ex.receiptSeq).value.1);
    }
    hide Validate, BoundTo;
  }

  /** Writing only the first bytes of a line. */
  lemma {:induction false} TornLineHolds(j: Json, rs: Receipts, lookup: Lookup, w: World, exs: seq<Example>, m: nat,
                                         tail: string, torn: string)
    requires Holds(j, rs, lookup, w, exs, m, tail) && '\n' !in torn
    requires w.store.Some? && !w.store.value.broken
    ensures Holds(j, rs, lookup, w.(data := w.data + torn, store := Some(w.store.value.(broken := true))), exs, m, torn)
  {
    hide Distinct, AllBound, Marshals, Render, IndexOf;
  }

  lemma {:induction false} AppendHolds(j: Json, rs: Receipts, lookup: Lookup, w: World, exs: seq<Example>, m: nat,
                                       tail: string, ex: Example, io: Io)
    returns (exs': seq<Example>, m': nat, tail': string)
    requires Lawful(j) && Holds(j, rs, lookup, w, exs, m, tail)
    ensures Holds(j, rs, lookup, After(j, rs, lookup, w, Append(ex, io)), exs', m', tail')
  {
    exs', m', tail' := exs, m, tail;
    if w.store.Some? {
      AppendCases(j, rs, lookup, w.data, w.store.value, ex, io);
      hide Appended, Validate, BoundTo, IndexOf, Render, BoundOne, Opened, Keep;
      if Writes(j, rs, lookup, w.store.value, ex) {
        assert LineOf(j, ex);
        var line := j.marshal(ex).value;
        IndexOneMore(exs, ex);
        if io.written <= |line| {
          tail' := line[..io.written];
          TornLineHolds(j, rs, lookup, w, exs, m, tail, tail');
          assert (line + "\n")[..io.written] == tail';
        } else {
          WholeLineHolds(j, rs, lookup, w, exs, m, tail, ex, io.synced);
          exs', tail' := exs + [ex], "";
          m' := if io.synced then |exs'| else m;
        }
        hide Holds, Lawful, LineOf;
      } else {
        hide Lawful;
      }
    }
  }

  lemma {:induction false} PrefixKeeps(j: Json, rs: Receipts, lookup: Lookup, exs: seq<Example>, k: nat)
    requires k <= |exs| && Marshals(j, exs) && Distinct(exs) && AllBound(rs, lookup, exs)
    ensures Marshals(j, exs[..k]) && Distinct(exs[..k]) && AllBound(rs, lookup, exs[..k])
  {
    hide BoundOne;
  }

  lemma {:induction false} PowerLossHolds(j: Json, rs: Receipts, lookup: Lookup, w: World, exs: seq<Example>, m: nat,
                                          tail: string, kept: nat)
    returns (exs': seq<Example>, tail': string)
    requires Lawful(j) && Holds(j, rs, lookup, w, exs, m, tail)
    requires w.synced <= kept <= |w.data|
    ensures Holds(j, rs, lookup, w.(data := w.data[..kept], store := None), exs', m, tail')
  {
    if kept <= |Render(j, exs)| {
      var k;
      k, tail' := PrefixOfRender(j, exs, kept, m);
      exs' := exs[..k];
      PrefixKeeps(j, rs, lookup, exs, k);
      hide Render, Distinct, AllBound, Marshals, Lawful;
      assert exs'[..m] == exs[..m];
      assert w.data[..kept] == Render(j, exs)[..kept];
    } else {
      hide Render, Distinct, AllBound, Marshals, Lawful;
      exs', tail' := exs, tail[..kept - |Render(j, exs)|];
      assert w.data[..kept] == Render(j, exs) + tail';
    }
  }

  lemma {:induction false} ReopenHolds(j: Json, rs: Receipts, lookup: Lookup, w: World, exs: seq<Example>, m: nat,
                                       tail: string, io: OpenIo)
    requires Lawful(j) && Holds(j, rs, lookup, w, exs, m, tail)
    ensures Holds(j, rs, lookup, After(j, rs, lookup, w, Reopen(io)), exs, m,
                  if io.readable && io.cuts then "" else tail)
    ensures io == WORKS ==> After(j, rs, lookup, w, Reopen(io)).store == Some(State(IndexOf(exs), false))
  {
    OpenedRendered(j, exs, tail);
    hide Opened, Keep, IndexOf, Distinct, AllBound, Marshals, Render, Lawful;
    assert Render(j, exs) + "" == Render(j, exs);
  }

  lemma {:induction false} EventHolds(j: Json, rs: Receipts, lookup: Lookup, w: World, exs: seq<Example>, m: nat,
                                      tail: string, ev: Event)
    returns (exs': seq<Example>, m': nat, tail': string)
    requires Lawful(j) && Holds(j, rs, lookup, w, exs, m, tail)
    ensures Holds(j, rs, lookup, After(j, rs, lookup, w, ev), exs', m', tail')
  {
    exs', m', tail' := exs, m, tail;
    match ev
    case Crash =>
      hide Appended, Opened, Keep, IndexOf, Validate, BoundTo, Render, BoundOne, Lawful;
    case Append(ex, io) =>
      exs', m', tail' := AppendHolds(j, rs, lookup, w, exs, m, tail, ex, io);
    case Reopen(io) =>
      ReopenHolds(j, rs, lookup, w, exs, m, tail, io);
      tail' := if io.readable && io.cuts then "" else tail;
    case PowerLoss(kept) =>
      hide Appended, Opened, Keep, IndexOf, Validate, BoundTo, Render, BoundOne;
      if w.synced <= kept <= |w.data| {
        exs', tail' := PowerLossHolds(j, rs, lookup, w, exs, m, tail, kept);
      }
  }

  ghost predicate Sound(j: Json, rs: Receipts, lookup: Lookup, w: World) {
    exists exs, m, tail :: Holds(j, rs, lookup, w, exs, m, tail)
  }

  /** After any run of appends, failed and torn writes, crashes, power losses and
      reopens, the file is whole lines of distinct, bound examples and one torn
      tail, every acknowledged example is on disk, and the index of a store that
      is not broken is exactly the index of its file. */
  lemma {:induction false} StoreSurvivesCrashes(j: Json, rs: Receipts, lookup: Lookup, evs: seq<Event>)
    requires Lawful(j)
    ensures Sound(j, rs, lookup, Run(j, rs, lookup, evs))
  {
    if evs == [] {
      assert Holds(j, rs, lookup, World("", 0, None, []), [], 0, "");
    } else {
      hide Holds, After;
      var init := evs[..|evs| - 1];
      StoreSurvivesCrashes(j, rs, lookup, init);
      var w := Run(j, rs, lookup, init);
      var exs, m, tail :| Holds(j, rs, lookup, w, exs, m, tail);
      var exs', m', tail' := EventHolds(j, rs, lookup, w, exs, m, tail, evs[|evs| - 1]);
    }
  }

  /** What a reader of the file sees: its whole lines, as examples. */
  ghost predicate FileIs(j: Json, data: string, exs: seq<Example>) {
    Marshals(j, exs) && data == Render(j, exs)
  }

  /** A reopened store: its file is exactly these distinct, bound examples, its
      index is theirs, and they hold everything acknowledged so far. */
  ghost predicate Recovered(j: Json, rs: Receipts, lookup: Lookup, w: World, acked: seq<Example>, exs: seq<Example>) {
    && FileIs(j, w.data, exs) && Distinct(exs) && AllBound(rs, lookup, exs)
    && w.store == Some(State(IndexOf(exs), false))
    && forall a | a in acked :: a in exs
  }

  /** Whatever happened before, opening again succeeds, leaves whole lines only,
      and indexes exactly them; nothing acknowledged is lost. */
  lemma {:induction false} ReopenRepairs(j: Json, rs: Receipts, lookup: Lookup, evs: seq<Event>)
    requires Lawful(j)
    ensures exists exs ::
              Recovered(j, rs, lookup, Run(j, rs, lookup, evs + [Reopen(WORKS)]), Run(j, rs, lookup, evs).acked, exs)
  {
    StoreSurvivesCrashes(j, rs, lookup, evs);
    var w := Run(j, rs, lookup, evs);
    var exs, m, tail :| Holds(j, rs, lookup, w, exs, m, tail);
    ReopenHolds(j, rs, lookup, w, exs, m, tail, WORKS);
    hide After, IndexOf, Distinct, AllBound, Marshals, Render, Lawful;
    var more := evs + [Reopen(WORKS)];
    assert more[..|more| - 1] == evs;
    assert Render(j, exs) + "" == Render(j, exs);
    assert Recovered(j, rs, lookup, Run(j, rs, lookup, more), w.acked, exs);
  }

  /** After any run, opening serves a store exactly when the file can be read, its
      torn tail, if it has one, can be cut, and it can be opened for appending. */
  lemma {:induction false} ReopenServesIff(j: Json, rs: Receipts, lookup: Lookup, evs: seq<Event>, io: OpenIo)
    requires Lawful(j)
    ensures var data := Run(j, rs, lookup, evs).data;
            var whole := data == "" || data[|data| - 1] == '\n';
            Run(j, rs, lookup, evs + [Reopen(io)]).store.Some? <==> io.readable && io.appends && (io.cuts || whole)
  {
    StoreSurvivesCrashes(j, rs, lookup, evs);
    var w := Run(j, rs, lookup, evs);
    var exs, m, tail :| Holds(j, rs, lookup, w, exs, m, tail);
    OpenedRendered(j, exs, tail);
    WholeIff(w.data);
    hide Opened, Keep, IndexOf, Distinct, AllBound, Marshals, Render, Lawful, Holds;
    var more := evs + [Reopen(io)];
    assert more[..|more| - 1] == evs;
  }

  lemma {:induction false} WholeIff(data: string)
    ensures Keep(data) == |data| <==> data == "" || data[|data| - 1] == '\n'
  {
  }

  lemma {:induction false} IndexHolds(exs: seq<Example>, a: Example)
    requires a in exs
    ensures a.receiptSeq in IndexOf(exs).seqs && a.exampleId in IndexOf(exs).ids
  {
    var i :| 0 <= i < |exs| && exs[i] == a;
  }

  /** Exactly once: after any run, a store that is not broken answers a second
      example for an acknowledged receipt or pending id with Duplicate, and
      writes nothing. */
  lemma {:induction false} AcknowledgedIsNotStoredAgain(j: Json, rs: Receipts, lookup: Lookup, evs: seq<Event>,
                                                        a: Example, ex: Example, io: Io)
    requires Lawful(j) && a in Run(j, rs, lookup, evs).acked
    requires Run(j, rs, lookup, evs).store.Some? && !Run(j, rs, lookup, evs).store.value.broken
    requires BoundOne(rs, lookup, ex) && j.marshal(ex).Some?
    requires ex.receiptSeq == a.receiptSeq || ex.exampleId == a.exampleId
    ensures var w := Run(j, rs, lookup, evs);
            Appended(j, rs, lookup, w.data, w.store.value, ex, io) == (w.data, w.store.value, Some(Duplicate))
  {
    StoreSurvivesCrashes(j, rs, lookup, evs);
    var w := Run(j, rs, lookup, evs);
    var exs, m, tail :| Holds(j, rs, lookup, w, exs, m, tail);
    hide Run, Distinct, AllBound, Marshals, Render, Lawful, Validate, BoundTo;
    assert a in exs[..m] && a in exs;
    IndexHolds(exs, a);
    hide IndexOf;
  }
}
