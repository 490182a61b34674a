/** Libraries that meet what modules DatasetStore and DatasetVerify assume of them,
    and a store that is filled with them: no result about the dataset is empty.
  */
module DatasetWitness {
  import opened Text
  import opened Crypto
  import opened Dataset
  import opened DatasetStore
  import opened DatasetVerify

  function Ones(n: nat): (s: string)
    ensures |s| == n
  {
    seq(n, _ => '1')
  }

  function Zeros(): Digest {
    seq(32, _ => '\0')
  }

  const HOME := Workload("default", "w", "uid")

  /** The example that labels the approval with receipt number n. */
  function Sample(n: nat): Example {
    Example(SCHEMA_VERSION, Ones(n), n, Hex(Zeros()), HOME, 0, "", "approve", "", "", "", "none", "", None, "")
  }

  /** A record names its pending id and nothing else. */
  function SampleReceipts(): Receipts {
    Receipts((r, record) => true,
             record => Some(Record("human", "approved", HOME, Some(RecordApproval("approve", "", "", record, 0)))))
  }

  /** A line is as long as the number of its example says. */
  function SampleJson(): Json {
    Json((ex: Example) => if ex == Sample(ex.receiptSeq) then Some("{" + Ones(ex.receiptSeq) + "}") else None,
         (line: string) => if |line| >= 2 then Some(Sample(|line| - 2)) else None)
  }

  function SampleReader(): Reader {
    Reader(line => line, SampleJson().unmarshal, line => None)
  }

  /** The receipts of the first n approvals. */
  function SampleLookup(n: nat): Lookup {
    s => if 0 < s <= n then Some((Receipt(s, Zeros()), Ones(s))) else None
  }

  function SampleChain(n: nat): Chain {
    Chain(map s: nat | 0 < s <= n :: Receipt(s, Zeros()), map s: nat | 0 < s <= n :: Ones(s))
  }

  lemma {:induction false} SampleMarshals(ex: Example)
    requires SampleJson().marshal(ex).Some?
    ensures LineOf(SampleJson(), ex) && ReadsOne(SampleReader(), SampleJson(), ex)
    ensures |SampleJson().marshal(ex).value| == ex.receiptSeq + 2
  {
    hide Sample;
    var line := SampleJson().marshal(ex).value;
    assert line == "{" + Ones(ex.receiptSeq) + "}";
    assert forall i | 0 <= i < |line| :: line[i] != '\n';
  }

  lemma {:induction false} SampleIsBound(limit: nat, n: nat)
    requires 0 < n <= limit
    ensures SampleJson().marshal(Sample(n)).Some?
    ensures BoundOne(SampleReceipts(), SampleLookup(limit), Sample(n))
  {
    hide Hex;
  }

  lemma {:induction false} SampleExports(limit: nat, s: nat)
    ensures Exports(SampleChain(limit), SampleLookup(limit), s)
  {
    hide Ones;
  }

  /** The laws assumed of the JSON library, the strict decoder and the trimmer can
      be met, together with a chain of any length that exports what the store looks
      up, and with an example bound to every receipt of it. */
  lemma {:induction false} DatasetLawsAreConsistent(limit: nat)
    ensures Lawful(SampleJson()) && ReadsBack(SampleReader(), SampleJson())
    ensures forall s :: Exports(SampleChain(limit), SampleLookup(limit), s)
    ensures forall n | 0 < n <= limit ::
              SampleJson().marshal(Sample(n)).Some? && BoundOne(SampleReceipts(), SampleLookup(limit), Sample(n))
  {
    hide Sample, BoundOne, Exports, LineOf, ReadsOne;
    forall ex | SampleJson().marshal(ex).Some?
      ensures LineOf(SampleJson(), ex) && ReadsOne(SampleReader(), SampleJson(), ex)
    {
      SampleMarshals(ex);
    }
    forall s
      ensures Exports(SampleChain(limit), SampleLookup(limit), s)
    {
      SampleExports(limit, s);
    }
    forall n | 0 < n <= limit
      ensures SampleJson().marshal(Sample(n)).Some? && BoundOne(SampleReceipts(), SampleLookup(limit), Sample(n))
    {
      SampleIsBound(limit, n);
    }
  }

  // --------------------------------------------------------- a store is filled

  function Samples(n: nat): (exs: seq<Example>)
    ensures |exs| == n
  {
    seq(n, i requires 0 <= i < n => Sample(i + 1))
  }

  /** Open, and append the first n examples. */
  function Filling(n: nat): seq<Event> {
    if n == 0 then [Reopen(WORKS)] else Filling(n - 1) + [Append(Sample(n), Io(n + 3, true))]
  }

  predicate UpTo(index: Index, n: nat) {
    (forall s | s in index.seqs :: s <= n) && (forall id | id in index.ids :: |id| <= n)
  }

  /** The store is open and holds no number beyond n. */
  predicate OpenTo(w: World, n: nat) {
    w.store.Some? && !w.store.value.broken && UpTo(w.store.value.index, n)
  }

  lemma {:induction false} FreshIsWritten(j: Json, rs: Receipts, lookup: Lookup, w: World, ex: Example, n: nat)
    requires 0 < n && OpenTo(w, n - 1) && ex.receiptSeq == n && |ex.exampleId| == n
    requires BoundOne(rs, lookup, ex) && j.marshal(ex).Some? && |j.marshal(ex).value| == n + 2
    ensures var after := After(j, rs, lookup, w, Append(ex, Io(n + 3, true)));
            after.acked == w.acked + [ex] && OpenTo(after, n)
  {
    hide Appended, BoundOne;
    assert Writes(j, rs, lookup, w.store.value, ex);
    AppendCases(j, rs, lookup, w.data, w.store.value, ex, Io(n + 3, true));
  }

  lemma {:induction false} NextIsWritten(limit: nat, w: World, n: nat)
    requires 0 < n <= limit && OpenTo(w, n - 1)
    ensures var after := After(SampleJson(), SampleReceipts(), SampleLookup(limit), w,
                               Append(Sample(n), Io(n + 3, true)));
            after.acked == w.acked + [Sample(n)] && OpenTo(after, n)
  {
    hide After, OpenTo, SampleJson, SampleReceipts, SampleLookup, BoundOne, Ones, Hex;
    SampleIsBound(limit, n);
    SampleMarshals(Sample(n));
    FreshIsWritten(SampleJson(), SampleReceipts(), SampleLookup(limit), w, Sample(n), n);
  }

  lemma {:induction false} Fills(limit: nat, n: nat)
    requires n <= limit
    ensures var w := Run(SampleJson(), SampleReceipts(), SampleLookup(limit), Filling(n));
            w.acked == Samples(n) && OpenTo(w, n)
    decreases n
  {
    hide Run, After, SampleJson, SampleReceipts, SampleLookup, Sample, OpenTo;
    if n == 0 {
      assert Lawful(SampleJson()) by { DatasetLawsAreConsistent(limit); }
      OpensEmpty(SampleJson(), SampleReceipts(), SampleLookup(limit));
    } else {
      Fills(limit, n - 1);
      NextIsWritten(limit, Run(SampleJson(), SampleReceipts(), SampleLookup(limit), Filling(n - 1)), n);
      RunOneMore(SampleJson(), SampleReceipts(), SampleLookup(limit), Filling(n - 1),
                 Append(Sample(n), Io(n + 3, true)));
      assert Samples(n) == Samples(n - 1) + [Sample(n)];
    }
  }

  lemma {:induction false} RunOneMore(j: Json, rs: Receipts, lookup: Lookup, evs: seq<Event>, ev: Event)
    ensures Run(j, rs, lookup, evs + [ev]) == After(j, rs, lookup, Run(j, rs, lookup, evs), ev)
  {
    hide After;
    var more := evs + [ev];
    assert more[..|more| - 1] == evs && more[|more| - 1] == ev;
  }

  lemma {:induction false} OpensEmpty(j: Json, rs: Receipts, lookup: Lookup)
    requires Lawful(j)
    ensures var w := Run(j, rs, lookup, [Reopen(WORKS)]);
            w.acked == [] && OpenTo(w, 0)
  {
    OpenedRendered(j, [], "");
    assert "" + "" == "";
    hide Opened, Lawful;
    RunOneMore(j, rs, lookup, [], Reopen(WORKS));
    assert [] + [Reopen(WORKS)] == [Reopen(WORKS)];
  }

  /** With libraries that keep the laws, a store acknowledges any number of
      different examples. */
  lemma {:induction false} SomeStoreFills(n: nat)
    ensures Lawful(SampleJson()) && ReadsBack(SampleReader(), SampleJson())
    ensures forall s :: Exports(SampleChain(n), SampleLookup(n), s)
    ensures Run(SampleJson(), SampleReceipts(), SampleLookup(n), Filling(n)).acked == Samples(n)
    ensures forall i, k | 0 <= i < k < n :: Samples(n)[i].receiptSeq != Samples(n)[k].receiptSeq
  {
    DatasetLawsAreConsistent(n);
    Fills(n, n);
    hide Lawful, ReadsBack, Exports, Run, Filling, SampleJson, SampleReader, SampleReceipts, SampleLookup, SampleChain;
  }
}
