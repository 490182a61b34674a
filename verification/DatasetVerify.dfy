/** pkg/dataset/verify.go: the offline check of an exported approvals.jsonl, and
    its agreement with the store that wrote the file.
  */
module DatasetVerify {
  import opened Text
  import opened Dataset
  import opened DatasetStore

  /** bytes.TrimSpace, the strict decoder that refuses unknown fields, and the
      reading of one records.jsonl line into its seq and record. */
  datatype Reader = Reader(trim: string -> string, strict: string -> Option<Example>,
                           recordLine: string -> Option<(nat, string)>)

  /** The strict decoder and the trimmer leave a marshalled example alone. */
  ghost predicate ReadsBack(rd: Reader, j: Json) {
    forall ex :: j.marshal(ex).Some? ==> ReadsOne(rd, j, ex)
  }

  ghost predicate ReadsOne(rd: Reader, j: Json, ex: Example)
    requires j.marshal(ex).Some?
  {
    rd.trim(j.marshal(ex).value) == j.marshal(ex).value && rd.strict(j.marshal(ex).value) == Some(ex)
  }

  /** The scanner's buffer limit, 1 << 24. */
  const MAX_LINE: nat := 0x100_0000

  /** The scanner's lines: no empty last one. */
  function Tokens(data: string): seq<string> {
    var p := Split(data);
    if p[|p| - 1] == "" then p[..|p| - 1] else p
  }

  /** The lines of a file hold no newline and joined with newlines they are the
      file, but for one newline at its end. */
  lemma {:induction false} TokensIff(data: string)
    ensures forall i | 0 <= i < |Tokens(data)| :: '\n' !in Tokens(data)[i]
    ensures if data == "" || data[|data| - 1] == '\n' then Join(Tokens(data) + [""], "\n") == data
            else Tokens(data) != [] && Join(Tokens(data), "\n") == data
  {
    SplitJoins(data);
    var p := Split(data);
    assert p[|p| - 1] == "" ==> p == p[..|p| - 1] + [""];
  }

  predicate Fit(lines: seq<string>) {
    forall i | 0 <= i < |lines| :: |lines[i]| < MAX_LINE
  }

  datatype Reason = UnparseableLine | DuplicateSeq | NotInChainSeq | Invalid(error: Error)

  datatype Failure = Failure(line: nat, seqNo: nat, reason: Reason)

  /** The receipts and records of an export. A later line wins over an earlier one. */
  datatype Chain = Chain(bySeq: map<nat, Receipt>, records: map<nat, string>)

  function BySeq(receipts: seq<Receipt>): map<nat, Receipt> {
    if receipts == [] then map[]
    else
      var last := receipts[|receipts| - 1];
      BySeq(receipts[..|receipts| - 1])[last.seqNo := last]
  }

  function RecordsBySeq(rd: Reader, lines: seq<string>): map<nat, string> {
    if lines == [] then map[]
    else
      var rest := RecordsBySeq(rd, lines[..|lines| - 1]);
      match rd.recordLine(lines[|lines| - 1])
      case None => rest
      case Some((s, record)) => rest[s := record]
  }

  /** The leading lines the scanner can hold. */
  function Readable(lines: seq<string>): (r: seq<string>)
    ensures |r| <= |lines| && r == lines[..|r|]
    ensures Fit(lines) ==> r == lines
  {
    if lines == [] then []
    else
      var r := Readable(lines[..|lines| - 1]);
      if |r| == |lines| - 1 && |lines[|lines| - 1]| < MAX_LINE then lines else r
  }

  function Record(chain: Chain, s: nat): string {
    if s in chain.records then chain.records[s] else ""
  }

  /** What is wrong with one parsed example, apart from repeated numbers. */
  function Complaint(rs: Receipts, chain: Chain, ex: Example): Option<Reason> {
    if ex.receiptSeq !in chain.bySeq then Some(NotInChainSeq)
    else
      match Validate(rs, ex, chain.bySeq[ex.receiptSeq], Record(chain, ex.receiptSeq))
      case Some(e) => Some(Invalid(e))
      case None => None
  }

  predicate Blank(rd: Reader, line: string) {
    rd.trim(line) == ""
  }

  function Parsed(rd: Reader, line: string): Option<Example> {
    rd.strict(rd.trim(line))
  }

  /** The receipt numbers named by the parsed lines. */
  function Named(rd: Reader, lines: seq<string>): set<nat> {
    set i | 0 <= i < |lines| && !Blank(rd, lines[i]) && Parsed(rd, lines[i]).Some? ::
      Parsed(rd, lines[i]).value.receiptSeq
  }

  /** The failure of line i of a file, if it has one. */
  function FailureAt(rd: Reader, rs: Receipts, chain: Chain, lines: seq<string>, i: nat): Option<Failure>
    requires i < |lines|
  {
    if Blank(rd, lines[i]) then None
    else
      match Parsed(rd, lines[i])
      case None => Some(Failure(i + 1, 0, UnparseableLine))
      case Some(ex) =>
        if ex.receiptSeq in Named(rd, lines[..i]) then Some(Failure(i + 1, ex.receiptSeq, DuplicateSeq))
        else
          match Complaint(rs, chain, ex)
          case Some(why) => Some(Failure(i + 1, ex.receiptSeq, why))
          case None => None
  }

  function Failures(rd: Reader, rs: Receipts, chain: Chain, lines: seq<string>): seq<Failure> {
    if lines == [] then []
    else
      Failures(rd, rs, chain, lines[..|lines| - 1]) +
      match FailureAt(rd, rs, chain, lines, |lines| - 1)
      case Some(f) => [f]
      case None => []
  }

  function NonBlank(rd: Reader, lines: seq<string>): nat {
    if lines == [] then 0
    else NonBlank(rd, lines[..|lines| - 1]) + if Blank(rd, lines[|lines| - 1]) then 0 else 1
  }

  /** The lines that are not blank. */
  function Written(rd: Reader, lines: seq<string>): set<nat> {
    set i: nat | i < |lines| && rd.trim(lines[i]) != ""
  }

  lemma {:induction false} NonBlankCounts(rd: Reader, lines: seq<string>)
    ensures NonBlank(rd, lines) == |Written(rd, lines)|
  {
    if lines != [] {
      var init, n := lines[..|lines| - 1], |lines| - 1;
      NonBlankCounts(rd, init);
      var last: set<nat> := if rd.trim(lines[n]) == "" then {} else {n};
      assert Written(rd, lines) == Written(rd, init) + last;
    }
  }

  lemma {:induction false} NamedOneMore(rd: Reader, lines: seq<string>, line: string)
    ensures Named(rd, lines + [line]) ==
            Named(rd, lines) +
            if !Blank(rd, line) && Parsed(rd, line).Some? then {Parsed(rd, line).value.receiptSeq} else {}
  {
    hide Blank, Parsed;
    var grown := lines + [line];
    assert grown[|lines|] == line;
    assert forall i | 0 <= i < |lines| :: grown[i] == lines[i];
  }

  /** A file passes the check: Verify returns no scanner error and no failure. */
  predicate Passes(rd: Reader, rs: Receipts, chain: Chain, approvals: string) {
    var lines := Readable(Tokens(approvals));
    lines == Tokens(approvals) && Failures(rd, rs, chain, lines) == []
  }

  /** The scanner holds every line exactly when each fits its buffer. */
  lemma {:induction false} ReadableIffFit(lines: seq<string>)
    ensures Readable(lines) == lines <==> Fit(lines)
  {
    if lines != [] {
      ReadableIffFit(lines[..|lines| - 1]);
      if Readable(lines) == lines {
        assert |Readable(lines[..|lines| - 1])| == |lines| - 1 && |lines[|lines| - 1]| < MAX_LINE;
      }
    }
  }

  /** Verify, after the receipt chain itself has been verified. The bool says
      that every line was short enough to be scanned. */
  method Verify(rd: Reader, rs: Receipts, receipts: seq<Receipt>, recordLines: seq<string>, approvals: string)
    returns (bound: nat, failures: seq<Failure>, scanned: bool)
    ensures var chain := Chain(BySeq(receipts), RecordsBySeq(rd, Readable(recordLines)));
            var lines := Readable(Tokens(approvals));
            && failures == Failures(rd, rs, chain, lines)
            && bound + |failures| == NonBlank(rd, lines)
    ensures scanned <==> Readable(Tokens(approvals)) == Tokens(approvals)
    ensures scanned && failures == [] <==>
            Passes(rd, rs, Chain(BySeq(receipts), RecordsBySeq(rd, Readable(recordLines))), approvals)
  {
    hide Blank, Parsed, Complaint, Tokens, Readable;
    var bySeq: map<nat, Receipt> := map[];
    for i := 0 to |receipts|
      invariant bySeq == BySeq(receipts[..i])
    {
      assert receipts[..i + 1][..i] == receipts[..i];
      bySeq := bySeq[receipts[i].seqNo := receipts[i]];
    }
    assert receipts[..|receipts|] == receipts;

    var rows := Readable(recordLines);
    var records: map<nat, string> := map[];
    for i := 0 to |rows|
      invariant records == RecordsBySeq(rd, rows[..i])
    {
      assert rows[..i + 1][..i] == rows[..i];
      var row := rd.recordLine(rows[i]);
      if row.Some? {
        records := records[row.value.0 := row.value.1];
      }
    }
    assert rows[..|rows|] == rows;

    var chain := Chain(bySeq, records);
    var lines := Readable(Tokens(approvals));
    scanned := lines == Tokens(approvals);
    var seen: set<nat> := {};
    bound, failures := 0, [];
    for i := 0 to |lines|
      invariant seen == Named(rd, lines[..i])
      invariant failures == Failures(rd, rs, chain, lines[..i])
      invariant bound + |failures| == NonBlank(rd, lines[..i])
    {
      hide Named;
      assert lines[..i + 1][..i] == lines[..i];
      assert lines[..i + 1] == lines[..i] + [lines[i]];
      NamedOneMore(rd, lines[..i], lines[i]);
      if Blank(rd, lines[i]) {
        continue;
      }
      var ex := Parsed(rd, lines[i]);
      if ex.None? {
        failures := failures + [Failure(i + 1, 0, UnparseableLine)];
        continue;
      }
      var s := ex.value.receiptSeq;
      if s in seen {
        failures := failures + [Failure(i + 1, s, DuplicateSeq)];
        continue;
      }
      seen := seen + {s};
      var why := Complaint(rs, chain, ex.value);
      if why.Some? {
        failures := failures + [Failure(i + 1, s, why.value)];
        continue;
      }
      bound := bound + 1;
    }
    assert lines[..|lines|] == lines;
  }

  // ------------------------------------------ what a clean report means

  /** The line reads as an example, and that is bound to the receipt of the chain
      with its number and to the record that came with it. */
  predicate LineBinds(rd: Reader, rs: Receipts, chain: Chain, line: string) {
    rd.strict(rd.trim(line)).Some? && ExampleBinds(rs, chain, rd.strict(rd.trim(line)).value)
  }

  predicate ExampleBinds(rs: Receipts, chain: Chain, ex: Example) {
    && ex.receiptSeq in chain.bySeq
    && BoundTo(rs, ex, chain.bySeq[ex.receiptSeq],
               if ex.receiptSeq in chain.records then chain.records[ex.receiptSeq] else "")
  }

  /** Nothing is complained of exactly in bound examples, and a complaint is true. */
  lemma {:induction false} ComplaintIff(rs: Receipts, chain: Chain, ex: Example)
    ensures var why := Complaint(rs, chain, ex);
            && (why.None? <==> ExampleBinds(rs, chain, ex))
            && (why == Some(NotInChainSeq) <==> ex.receiptSeq !in chain.bySeq)
            && why !in {Some(UnparseableLine), Some(DuplicateSeq)}
  {
    if ex.receiptSeq in chain.bySeq {
      ValidateIff(rs, ex, chain.bySeq[ex.receiptSeq], Record(chain, ex.receiptSeq));
    }
    hide Validate, BoundTo;
  }

  /** Every line that is not blank binds, and no two name one receipt. */
  predicate Clean(rd: Reader, rs: Receipts, chain: Chain, lines: seq<string>) {
    && (forall i | 0 <= i < |lines| && rd.trim(lines[i]) != "" :: LineBinds(rd, rs, chain, lines[i]))
    && (forall i, k | 0 <= i < k < |lines| && rd.trim(lines[i]) != "" && rd.trim(lines[k]) != "" ::
          LineBinds(rd, rs, chain, lines[i]) && LineBinds(rd, rs, chain, lines[k]) ==>
          rd.strict(rd.trim(lines[i])).value.receiptSeq != rd.strict(rd.trim(lines[k])).value.receiptSeq)
  }

  /** Receipt i is the last one with number n. */
  predicate LastReceipt(receipts: seq<Receipt>, i: nat, n: nat) {
    i < |receipts| && receipts[i].seqNo == n && forall k | i < k < |receipts| :: receipts[k].seqNo != n
  }

  /** The receipt of a chain is the last one of its number. */
  lemma {:induction false} LastReceiptWins(receipts: seq<Receipt>, n: nat)
    ensures n !in BySeq(receipts) ==> forall k | 0 <= k < |receipts| :: receipts[k].seqNo != n
    ensures n in BySeq(receipts) ==> exists i: nat :: LastReceipt(receipts, i, n) && receipts[i] == BySeq(receipts)[n]
  {
    if receipts != [] {
      var init, last := receipts[..|receipts| - 1], receipts[|receipts| - 1];
      LastReceiptWins(init, n);
      assert forall k | 0 <= k < |init| :: init[k] == receipts[k];
      if last.seqNo == n {
        assert LastReceipt(receipts, |init|, n);
      } else if n in BySeq(init) {
        var i: nat :| LastReceipt(init, i, n) && init[i] == BySeq(init)[n];
        assert LastReceipt(receipts, i, n);
      }
    }
  }

  /** Line i is the last one with a record for n. */
  predicate LastRecord(rd: Reader, lines: seq<string>, i: nat, n: nat) {
    i < |lines| && Names(rd, lines[i], n) && forall k | i < k < |lines| :: !Names(rd, lines[k], n)
  }

  predicate Names(rd: Reader, line: string, n: nat) {
    rd.recordLine(line).Some? && rd.recordLine(line).value.0 == n
  }

  /** And so is the record. */
  lemma {:induction false} LastRecordWins(rd: Reader, lines: seq<string>, n: nat)
    ensures n !in RecordsBySeq(rd, lines) ==> forall k | 0 <= k < |lines| :: !Names(rd, lines[k], n)
    ensures n in RecordsBySeq(rd, lines) ==>
              exists i: nat ::
                LastRecord(rd, lines, i, n) && rd.recordLine(lines[i]) == Some((n, RecordsBySeq(rd, lines)[n]))
  {
    if lines != [] {
      var init, last := lines[..|lines| - 1], lines[|lines| - 1];
      LastRecordWins(rd, init, n);
      assert forall k | 0 <= k < |init| :: init[k] == lines[k];
      if Names(rd, last, n) {
        assert LastRecord(rd, lines, |init|, n);
      } else if n in RecordsBySeq(rd, init) {
        var i: nat :| LastRecord(rd, init, i, n) && rd.recordLine(init[i]) == Some((n, RecordsBySeq(rd, init)[n]));
        assert LastRecord(rd, lines, i, n);
      }
    }
  }

  /** What is true of line i when this failure is reported for it: the failure names
      the line and its receipt number, and what it says is the case. */
  ghost predicate Explained(rd: Reader, rs: Receipts, chain: Chain, lines: seq<string>, i: nat, f: Failure) {
    && i < |lines| && f.line == i + 1 && rd.trim(lines[i]) != ""
    && match rd.strict(rd.trim(lines[i]))
       case None => f.reason == UnparseableLine
       case Some(ex) =>
         && f.seqNo == ex.receiptSeq && f.reason != UnparseableLine
         && (f.reason == DuplicateSeq <==> exists k: nat :: NamesBefore(rd, lines, i, k, ex.receiptSeq))
         && (f.reason != DuplicateSeq ==> !ExampleBinds(rs, chain, ex))
         && (f.reason == NotInChainSeq ==> ex.receiptSeq !in chain.bySeq)
  }

  predicate NamesBefore(rd: Reader, lines: seq<string>, i: nat, k: nat, n: nat)
    requires i <= |lines|
  {
    k < i && rd.trim(lines[k]) != "" && rd.strict(rd.trim(lines[k])).Some? &&
    rd.strict(rd.trim(lines[k])).value.receiptSeq == n
  }

  lemma {:induction false} NamedIff(rd: Reader, lines: seq<string>, i: nat, n: nat)
    requires i <= |lines|
    ensures n in Named(rd, lines[..i]) <==> exists k: nat :: NamesBefore(rd, lines, i, k, n)
  {
    if n in Named(rd, lines[..i]) {
      var k :| 0 <= k < i && !Blank(rd, lines[..i][k]) && Parsed(rd, lines[..i][k]).Some? &&
               Parsed(rd, lines[..i][k]).value.receiptSeq == n;
      assert NamesBefore(rd, lines, i, k, n);
    }
    forall k: nat | NamesBefore(rd, lines, i, k, n)
      ensures n in Named(rd, lines[..i])
    {
      assert lines[..i][k] == lines[k];
    }
  }

  lemma {:induction false} FailureAtExplained(rd: Reader, rs: Receipts, chain: Chain, lines: seq<string>, i: nat)
    requires i < |lines| && FailureAt(rd, rs, chain, lines, i).Some?
    ensures Explained(rd, rs, chain, lines, i, FailureAt(rd, rs, chain, lines, i).value)
  {
    if rd.strict(rd.trim(lines[i])).Some? {
      var ex := rd.strict(rd.trim(lines[i])).value;
      NamedIff(rd, lines, i, ex.receiptSeq);
      ComplaintIff(rs, chain, ex);
    }
    hide Complaint, Named, ExampleBinds, NamesBefore;
  }

  /** Every reported failure says something true about the line that it names. */
  lemma {:induction false} FailuresExplain(rd: Reader, rs: Receipts, chain: Chain, lines: seq<string>, f: Failure)
    requires f in Failures(rd, rs, chain, lines)
    ensures f.line > 0 && Explained(rd, rs, chain, lines, f.line - 1, f)
  {
    var init := lines[..|lines| - 1];
    var last := FailureAt(rd, rs, chain, lines, |lines| - 1);
    if last == Some(f) {
      FailureAtExplained(rd, rs, chain, lines, |lines| - 1);
    } else {
      assert f in Failures(rd, rs, chain, init);
      FailuresExplain(rd, rs, chain, init, f);
      hide FailureAt, ExampleBinds;
      ExplainedLonger(rd, rs, chain, init, lines, f.line - 1, f);
    }
  }

  lemma {:induction false} ExplainedLonger(rd: Reader, rs: Receipts, chain: Chain, a: seq<string>, b: seq<string>,
                                           i: nat, f: Failure)
    requires a <= b && Explained(rd, rs, chain, a, i, f)
    ensures Explained(rd, rs, chain, b, i, f)
  {
    hide ExampleBinds;
    forall k: nat, n: nat
      ensures NamesBefore(rd, a, i, k, n) <==> NamesBefore(rd, b, i, k, n)
    {
      if k < i {
        assert a[k] == b[k];
      }
    }
  }

  lemma {:induction false} CleanOneMore(rd: Reader, rs: Receipts, chain: Chain, lines: seq<string>, line: string)
    ensures Clean(rd, rs, chain, lines + [line]) <==>
            Clean(rd, rs, chain, lines) &&
            (rd.trim(line) == "" ||
             (LineBinds(rd, rs, chain, line) && Parsed(rd, line).value.receiptSeq !in Named(rd, lines)))
  {
    hide ExampleBinds;
    var grown := lines + [line];
    assert grown[|lines|] == line;
    assert forall i | 0 <= i < |lines| :: grown[i] == lines[i];
    if Clean(rd, rs, chain, grown) {
      assert Clean(rd, rs, chain, lines);
      assert rd.trim(line) == "" || LineBinds(rd, rs, chain, grown[|lines|]);
    }
  }

  /** A report without failures means exactly that every non-blank line parses,
      binds to a receipt of the chain, and names a receipt of its own. */
  lemma {:induction false} NoFailuresIffClean(rd: Reader, rs: Receipts, chain: Chain, lines: seq<string>)
    ensures Failures(rd, rs, chain, lines) == [] <==> Clean(rd, rs, chain, lines)
  {
    if lines != [] {
      var init, last := lines[..|lines| - 1], lines[|lines| - 1];
      NoFailuresIffClean(rd, rs, chain, init);
      CleanOneMore(rd, rs, chain, init, last);
      if rd.strict(rd.trim(last)).Some? {
        ComplaintIff(rs, chain, rd.strict(rd.trim(last)).value);
      }
      hide Complaint, Clean, Named, ExampleBinds;
      assert lines == init + [last];
    }
  }

  /** A file passes exactly when each of its lines fits the scanner's buffer and all
      that are not blank bind, with distinct numbers. */
  lemma {:induction false} PassesIff(rd: Reader, rs: Receipts, chain: Chain, approvals: string)
    ensures Passes(rd, rs, chain, approvals) <==>
            (forall i | 0 <= i < |Tokens(approvals)| :: |Tokens(approvals)[i]| < 16777216) &&
              Clean(rd, rs, chain, Tokens(approvals))
  {
    ReadableIffFit(Tokens(approvals));
    NoFailuresIffClean(rd, rs, chain, Tokens(approvals));
    hide Clean, Tokens, Failures, Readable;
  }

  // -------------------------------------------- agreement with the writer

  /** The export holds the receipt and record that the lookup gave the store. */
  predicate Exports(chain: Chain, lookup: Lookup, s: nat) {
    if s in chain.bySeq then lookup(s) == Some((chain.bySeq[s], Record(chain, s))) else lookup(s).None?
  }

  predicate ExportsAll(chain: Chain, lookup: Lookup, exs: seq<Example>) {
    forall i | 0 <= i < |exs| :: Exports(chain, lookup, exs[i].receiptSeq)
  }

  lemma {:induction false} LineOfExample(rd: Reader, rs: Receipts, j: Json, chain: Chain, lookup: Lookup, ex: Example)
    requires Lawful(j) && ReadsBack(rd, j) && j.marshal(ex).Some? && Exports(chain, lookup, ex.receiptSeq)
    ensures var line := j.marshal(ex).value;
            && !Blank(rd, line) && Parsed(rd, line) == Some(ex)
            && (LineBinds(rd, rs, chain, line) <==> BoundOne(rs, lookup, ex))
  {
    hide Validate, BoundTo;
    assert LineOf(j, ex) && ReadsOne(rd, j, ex);
  }

  lemma {:induction false} RenderedLines(rd: Reader, rs: Receipts, j: Json, chain: Chain, lookup: Lookup,
                                         exs: seq<Example>)
    requires Lawful(j) && ReadsBack(rd, j) && Marshals(j, exs) && ExportsAll(chain, lookup, exs)
    ensures Named(rd, Lines(j, exs)) == IndexOf(exs).seqs
    ensures NonBlank(rd, Lines(j, exs)) == |exs|
  {
    if exs != [] {
      var init, last := exs[..|exs| - 1], exs[|exs| - 1];
      RenderedLines(rd, rs, j, chain, lookup, init);
      LineOfExample(rd, rs, j, chain, lookup, last);
      hide Blank, Parsed, BoundOne, Lawful, ReadsBack;
      var lines := Lines(j, exs);
      assert lines[..|lines| - 1] == Lines(j, init);
      assert lines == Lines(j, init) + [j.marshal(last).value];
      NamedOneMore(rd, Lines(j, init), j.marshal(last).value);
      IndexOneMore(init, last);
      hide Named, IndexOf, Distinct;
      assert exs == init + [last];
    }
  }

  /** The verifier and the writer agree. On a file of whole lines the report is
      clean exactly when every example is bound and no receipt number repeats,
      and then every line counts as bound. */
  lemma {:induction false} FileIsCleanIff(rd: Reader, rs: Receipts, j: Json, chain: Chain, lookup: Lookup,
                                          exs: seq<Example>)
    requires Lawful(j) && ReadsBack(rd, j) && Marshals(j, exs) && ExportsAll(chain, lookup, exs)
    ensures Tokens(Render(j, exs)) == Lines(j, exs) && NonBlank(rd, Lines(j, exs)) == |exs|
    ensures Failures(rd, rs, chain, Lines(j, exs)) == [] <==>
            AllBound(rs, lookup, exs) && forall i, k | 0 <= i < k < |exs| :: exs[i].receiptSeq != exs[k].receiptSeq
  {
    SplitRender(j, exs);
    RenderedLines(rd, rs, j, chain, lookup, exs);
    var lines := Lines(j, exs);
    assert (lines + [""])[..|lines|] == lines;
    NoFailuresIffClean(rd, rs, chain, lines);
    forall i | 0 <= i < |exs|
      ensures !Blank(rd, lines[i]) && Parsed(rd, lines[i]) == Some(exs[i])
      ensures LineBinds(rd, rs, chain, lines[i]) <==> BoundOne(rs, lookup, exs[i])
    {
      LineOfExample(rd, rs, j, chain, lookup, exs[i]);
    }
    hide Blank, Parsed, BoundOne, Lawful, ReadsBack, LineBinds, Failures, Split, Render;
  }

  /** Whatever failed writes, crashes and power losses a store went through, the
      file it serves once reopened passes the offline check exactly when each of
      its lines fits the scanner's buffer, and then every example counts as bound.
      A longer line stops the scan with an error, and nothing else can be wrong. */
  lemma {:induction false} StoredFilePassesIff(rd: Reader, rs: Receipts, j: Json, chain: Chain, lookup: Lookup,
                                               evs: seq<Event>)
    requires Lawful(j) && ReadsBack(rd, j) && forall s :: Exports(chain, lookup, s)
    ensures var w := Run(j, rs, lookup, evs + [Reopen(WORKS)]);
            && (Passes(rd, rs, chain, w.data) <==> Fit(Tokens(w.data)))
            && Failures(rd, rs, chain, Tokens(w.data)) == []
            && exists exs ::
                 && Recovered(j, rs, lookup, w, Run(j, rs, lookup, evs).acked, exs)
                 && NonBlank(rd, Tokens(w.data)) == |exs|
  {
    ReopenRepairs(j, rs, lookup, evs);
    var w, acked := Run(j, rs, lookup, evs + [Reopen(WORKS)]), Run(j, rs, lookup, evs).acked;
    var exs :| Recovered(j, rs, lookup, w, acked, exs);
    FileIsCleanIff(rd, rs, j, chain, lookup, exs);
    ReadableIffFit(Tokens(w.data));
    hide Run, IndexOf, AllBound, Marshals, Render, Lawful, ReadsBack, Failures, Tokens, NonBlank, Exports, Fit,
         Readable;
  }

  lemma {:induction false} OneMoreBound(rs: Receipts, lookup: Lookup, exs: seq<Example>, ex: Example)
    requires AllBound(rs, lookup, exs) && Distinct(exs)
    ensures var grown := exs + [ex];
            BoundOne(rs, lookup, ex) && ex.receiptSeq !in IndexOf(exs).seqs <==>
            AllBound(rs, lookup, grown) && forall i, k | 0 <= i < k < |grown| ::
              grown[i].receiptSeq != grown[k].receiptSeq
  {
    hide BoundOne;
    var grown := exs + [ex];
    assert grown[|exs|] == ex;
    assert forall i | 0 <= i < |exs| :: grown[i] == exs[i];
  }

  /** On a file the store wrote, the verifier passes one more line exactly when
      the store would write it and every line fits the scanner's buffer, except
      that the store also refuses a pending id it already holds. */
  lemma {:induction false} VerifierMatchesWriter(rd: Reader, rs: Receipts, j: Json, chain: Chain, lookup: Lookup,
                                                 exs: seq<Example>, ex: Example)
    requires Lawful(j) && ReadsBack(rd, j) && Marshals(j, exs) && j.marshal(ex).Some?
    requires ExportsAll(chain, lookup, exs) && Exports(chain, lookup, ex.receiptSeq)
    requires AllBound(rs, lookup, exs) && Distinct(exs)
    ensures var data := Render(j, exs) + (j.marshal(ex).value + "\n");
            Writes(j, rs, lookup, State(IndexOf(exs), false), ex) && Fit(Tokens(data)) <==>
            Passes(rd, rs, chain, data) && ex.exampleId !in IndexOf(exs).ids
  {
    var grown := exs + [ex];
    RenderOneMore(j, exs, ex);
    OneMoreBound(rs, lookup, exs, ex);
    assert forall i | 0 <= i < |grown| :: grown[i] == if i < |exs| then exs[i] else ex;
    assert ExportsAll(chain, lookup, grown);
    FileIsCleanIff(rd, rs, j, chain, lookup, grown);
    hide Lawful, ReadsBack, Failures, Tokens, Render, BoundOne, Marshals, NonBlank, Lines, IndexOf, AllBound,
         ExportsAll, Distinct, Fit, Readable;
    ReadableIffFit(Tokens(Render(j, grown)));
    assert Writes(j, rs, lookup, State(IndexOf(exs), false), ex) <==>
           BoundOne(rs, lookup, ex) && ex.receiptSeq !in IndexOf(exs).seqs && ex.exampleId !in IndexOf(exs).ids;
  }

  /** The store has no line limit: whatever line it writes, if the line is as long
      as the scanner's buffer, the file no longer passes. */
  lemma {:induction false} OverlongLineFails(rd: Reader, rs: Receipts, j: Json, chain: Chain, lookup: Lookup,
                                             exs: seq<Example>, ex: Example)
    requires Lawful(j) && Marshals(j, exs) && j.marshal(ex).Some? && |j.marshal(ex).value| >= MAX_LINE
    ensures !Passes(rd, rs, chain, Render(j, exs) + (j.marshal(ex).value + "\n"))
  {
    var grown := exs + [ex];
    RenderOneMore(j, exs, ex);
    SplitRender(j, grown);
    var lines := Lines(j, grown);
    assert (lines + [""])[..|lines|] == lines;
    assert lines[|exs|] == j.marshal(ex).value;
    ReadableIffFit(lines);
    hide Split, Readable, Failures, Render, Lines;
  }
}
