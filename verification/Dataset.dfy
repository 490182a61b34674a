/** pkg/dataset/dataset.go: the labelled example and its binding to a receipt. */
module Dataset {
  import opened Text
  import opened Crypto

  datatype Workload = Workload(namespace: string, name: string, uid: string)

  /** One labelled example. `content` and `features` stand for the fields that
      no check reads. */
  datatype Example = Example(
    schemaVersion: int, exampleId: string, receiptSeq: nat, receiptEntryHash: string, workload: Workload,
    originalSeq: nat, features: string, verdict: string, reasonSha: string, approverSha: string, timestamp: string,
    captureMode: string, content: string, editDiff: Option<string>, source: string)

  datatype Receipt = Receipt(seqNo: nat, entryHash: Digest)

  datatype RecordApproval = RecordApproval(
    verdict: string, approverSha: string, reasonSha: string, pendingId: string, originalSeq: nat)

  datatype Record = Record(layer: string, outcome: string, workload: Workload, approval: Option<RecordApproval>)

  datatype Error =
    | BadSchema | BadCaptureMode | BadLabel | BadEditDiff | Unbound | Duplicate | Broken | WriteFailed
    | Unparseable | NotInChain

  /** The receipt library: whether a record hashes to the digest in a receipt,
      and the reading of a record. */
  datatype Receipts = Receipts(binds: (Receipt, string) -> bool, parse: string -> Option<Record>)

  const SCHEMA_VERSION := 1

  /** receipts.OutcomeForLabel. */
  function OutcomeForLabel(verdict: string): Option<string> {
    if verdict == "approve" then Some("approved")
    else if verdict == "reject" then Some("rejected")
    else if verdict == "edit" then Some("edited")
    else None
  }

  /** Validate, with the checks in the order of the code. */
  function Validate(rs: Receipts, ex: Example, r: Receipt, record: string): Option<Error> {
    if ex.schemaVersion != SCHEMA_VERSION then Some(BadSchema)
    else if ex.source != "" then Some(Unbound)
    else if ex.captureMode !in {"none", "redacted", "full"} then Some(BadCaptureMode)
    else if ex.receiptSeq == 0 || ex.receiptSeq != r.seqNo || ex.receiptEntryHash != Hex(r.entryHash) then Some(Unbound)
    else if !rs.binds(r, record) then Some(Unbound)
    else
      match rs.parse(record)
      case None => Some(Unbound)
      case Some(rec) =>
        match OutcomeForLabel(ex.verdict)
        case None => Some(BadLabel)
        case Some(want) =>
          if rec.layer != "human" || rec.approval.None? then Some(Unbound)
          else
            var a := rec.approval.value;
            if rec.outcome != want || a.verdict != ex.verdict then Some(Unbound)
            else if a.pendingId != ex.exampleId || a.approverSha != ex.approverSha || a.reasonSha != ex.reasonSha
              then Some(Unbound)
            else if a.originalSeq != ex.originalSeq then Some(Unbound)
            else if rec.workload != ex.workload then Some(Unbound)
            else if (ex.verdict == "edit") != ex.editDiff.Some? then Some(BadEditDiff)
            else None
  }

  /** The label of an example and the outcome of a record that say the same. */
  const OUTCOMES: set<(string, string)> := {("approve", "approved"), ("reject", "rejected"), ("edit", "edited")}

  /** What binds an example to a receipt: the receipt has its number and entry hash,
      the record hashes to the receipt and is that of a human decision, and the two
      say the same label, pending id, digests, original receipt and workload. */
  predicate BoundTo(rs: Receipts, ex: Example, r: Receipt, record: string) {
    && ex.schemaVersion == 1 && ex.source == "" && ex.captureMode in {"none", "redacted", "full"}
    && r.seqNo != 0 && ex.receiptSeq == r.seqNo && ex.receiptEntryHash == Hex(r.entryHash)
    && rs.binds(r, record) && rs.parse(record).Some? && DecidedAs(ex, rs.parse(record).value)
    && (ex.editDiff.Some? <==> ex.verdict == "edit")
  }

  /** The record is that of the human decision that the example labels. */
  predicate DecidedAs(ex: Example, rec: Record) {
    && rec.layer == "human" && rec.approval.Some? && (ex.verdict, rec.outcome) in OUTCOMES
    && rec.workload == ex.workload
    && rec.approval.value == RecordApproval(ex.verdict, ex.approverSha, ex.reasonSha, ex.exampleId, ex.originalSeq)
  }

  /** The checks in their order accept exactly the bound examples, and the error
      they give is the one that fits. */
  lemma {:induction false} ValidateIff(rs: Receipts, ex: Example, r: Receipt, record: string)
    ensures var err := Validate(rs, ex, r, record);
            && (err.None? <==> BoundTo(rs, ex, r, record))
            && (err == Some(BadSchema) <==> ex.schemaVersion != 1)
            && (err == Some(BadCaptureMode) ==> ex.captureMode !in {"none", "redacted", "full"})
            && (err == Some(BadLabel) ==> ex.verdict !in {"approve", "reject", "edit"})
            && (err == Some(BadEditDiff) ==> !(ex.editDiff.Some? <==> ex.verdict == "edit"))
            && err in {None, Some(BadSchema), Some(BadCaptureMode), Some(BadLabel), Some(BadEditDiff), Some(Unbound)}
  {
    hide Hex;
  }

  /** Two examples that validate against one receipt carry the same id, label,
      digests and workload, so the receipt determines the label; or their records
      differ and hash to that one receipt, which is a collision. */
  lemma {:induction false} ReceiptDeterminesLabel(rs: Receipts, ex: Example, ex': Example, r: Receipt, record: string,
                                                  record': string)
    requires Validate(rs, ex, r, record).None? && Validate(rs, ex', r, record').None?
    ensures || (record != record' && rs.binds(r, record) && rs.binds(r, record'))
            || (&& ex.exampleId == ex'.exampleId && ex.verdict == ex'.verdict && ex.workload == ex'.workload
                && ex.receiptSeq == ex'.receiptSeq && ex.receiptEntryHash == ex'.receiptEntryHash
                && ex.originalSeq == ex'.originalSeq && ex.reasonSha == ex'.reasonSha
                && ex.approverSha == ex'.approverSha)
  {
    ValidateIff(rs, ex, r, record);
    ValidateIff(rs, ex', r, record');
    hide Validate, Hex;
  }

  /** NewExample. `content` and `edited` are the rendered action and, when an
      edited action was given, its rendered difference; rendering can fail. */
  function NewExample(r: Receipt, human: Record, timestamp: string, mode: string, features: string,
                      content: Option<string>, edited: Option<Option<string>>): Result<Example, Error>
  {
    match human.approval
    case None => Err(Unbound)
    case Some(a) =>
      var kept := if mode in {"none", "redacted", "full"} then mode else "none";
      if content.None? then Err(Unparseable)
      else if a.verdict == "edit" && edited.None? then Err(BadEditDiff)
      else if a.verdict == "edit" && edited.value.None? then Err(Unparseable)
      else
        Ok(Example(SCHEMA_VERSION, a.pendingId, r.seqNo, Hex(r.entryHash), human.workload, a.originalSeq, features,
                   a.verdict, a.reasonSha, a.approverSha, timestamp, kept, content.value,
                   if a.verdict == "edit" then edited.value else None, ""))
  }

  /** An example built for a human decision always validates against the receipt
      and record it was built from; it is built unless rendering fails or an edit
      lacks its action. */
  lemma {:induction false} BuiltExampleValidates(rs: Receipts, r: Receipt, record: string, human: Record,
                                                 timestamp: string, mode: string, features: string,
                                                 content: Option<string>, edited: Option<Option<string>>)
    requires r.seqNo > 0 && rs.binds(r, record) && rs.parse(record) == Some(human)
    requires human.layer == "human" && human.approval.Some?
    requires OutcomeForLabel(human.approval.value.verdict) == Some(human.outcome)
    ensures var b := NewExample(r, human, timestamp, mode, features, content, edited);
            var rendered := edited.Some? && edited.value.Some?;
            && (b.Ok? <==> content.Some? && (human.approval.value.verdict == "edit" ==> rendered))
            && (b.Ok? ==> Validate(rs, b.value, r, record).None?)
            && (b.Ok? ==> b.value.timestamp == timestamp && b.value.features == features)
            && (b.Ok? ==> Some(b.value.content) == content)
            && (b.Ok? && mode in {"none", "redacted", "full"} ==> b.value.captureMode == mode)
            && (b.Ok? && mode !in {"none", "redacted", "full"} ==> b.value.captureMode == "none")
            && (b.Ok? && b.value.editDiff.Some? ==> edited == Some(b.value.editDiff))
  {
    var m := if mode in {"none", "redacted", "full"} then mode else "none";
    assert m in {"none", "redacted", "full"};
  }
}
