/** pkg/approval/approval.go: the annotation protocol for human decisions. */
module Approval {
  import opened Text
  import opened Crypto
  import DataClass

  type Annotations = map<string, string>

  // Annotation keys. Clients set DECISION, REASON and EDIT; only the admission
  // webhook sets BY, FOR and MAC.
  const DECISION := "clawdlinux.org/approval-decision"
  const REASON := "clawdlinux.org/approval-reason"
  const EDIT := "clawdlinux.org/approval-edit"
  const BY := "clawdlinux.org/approval-by"
  const FOR := "clawdlinux.org/approval-for"
  const MAC := "clawdlinux.org/approval-mac"

  const PROTOCOL_KEYS: seq<string> := [DECISION, REASON, EDIT, BY, FOR, MAC]
  const STAMP_KEYS: seq<string> := [BY, FOR, MAC]

  const MAC_DOMAIN := "clawdlinux.org/approval-stamp/v1"
  const PENDING_DOMAIN := "clawdlinux.org/approval-pending-payload/v1"
  const DECISION_DOMAIN := "clawdlinux.org/approval-decision/v1"

  const APPROVE := "approve"
  const REJECT := "reject"
  const EDITED := "edit"

  const MAX_REASON_BYTES := 1024
  const MAX_EDIT_BYTES := 16384
  const MAX_ACTION_NAME_BYTES := 253
  const MAX_DESCRIPTION_BYTES := 4096

  datatype Error =
    | BadLabel | BadReason | EditNotAllowed | EditMissing | EditTooLong | EditUnreadable | EditNoName | EditNameTooLong
    | EditDescriptionTooLong | Unstamped | Forged | Final | NoPending | NoKey | BadMac | BadApprover
    | ClearTogether | NoUsername

  datatype Approver = Approver(username: string, groupsSha: string)

  datatype EditedAction = EditedAction(name: string, description: string, params: DataClass.Value)

  /** The pending action a decision is bound to. */
  datatype Pending = Pending(id: string, uid: string, payloadSha: string)

  datatype Decision = Decision(verdict: string, reason: string, edit: Option<EditedAction>, approver: Approver,
                               approverRaw: string, forId: string)

  /** UTF-8 and JSON: whether a string is valid UTF-8, its repair, whether it is
      blank, the sorted group names joined by newlines, and the strict reading of
      the two JSON annotations. */
  datatype Codec = Codec(
    utf8: string -> bool,
    repair: string -> string,
    blank: string -> bool,
    groupsText: multiset<string> -> string,
    encodeApprover: Approver -> string,
    decodeApprover: string -> Option<Approver>,
    decodeEdit: string -> Option<EditedAction>)

  /** What the libraries promise: strict JSON holds no raw control byte, a
      marshalled approver reads back with its invalid UTF-8 repaired, and repair
      empties nothing and leaves valid text alone. */
  ghost predicate Lawful(c: Codec) {
    && (forall s :: c.decodeEdit(s).Some? ==> '\0' !in s)
    && (forall a: Approver :: ReadsBack(c, a))
    && (forall s :: Repairs(c, s))
    && c.blank("")
  }

  ghost predicate ReadsBack(c: Codec, a: Approver) {
    c.encodeApprover(a) != "" &&
    c.decodeApprover(c.encodeApprover(a)) == Some(Approver(c.repair(a.username), c.repair(a.groupsSha)))
  }

  ghost predicate Repairs(c: Codec, s: string) {
    && (c.repair(s) == "" ==> s == "")
    && (c.utf8(s) ==> c.repair(s) == s)
    && (IsHexText(s) ==> c.utf8(s))
  }

  predicate IsHexText(s: string) {
    forall i | 0 <= i < |s| :: HexValue(s[i]).Some?
  }

  // ------------------------------------------------------ digests and stamps

  function PendingSha(h: Hashes, proposal: string): (r: string)
    ensures |r| == 64
  {
    Sha256Hex(h, PENDING_DOMAIN + "\0" + proposal)
  }

  /** The NUL-joined text under the decision digest. */
  function DecisionText(ann: Annotations): string {
    DECISION_DOMAIN + "\0" + (Get(ann, DECISION) + "\0" + (Get(ann, REASON) + "\0" + Get(ann, EDIT)))
  }

  function DecisionSha(h: Hashes, ann: Annotations): (r: string)
    ensures |r| == 64
  {
    Sha256Hex(h, DecisionText(ann))
  }

  /** The NUL-joined text under the stamp. */
  function MacText(h: Hashes, p: Pending, ann: Annotations): string {
    MAC_DOMAIN + "\0" + (p.uid + "\0" + p.id + "\0" +
                         (DecisionSha(h, ann) + "\0" + (Sha256Hex(h, Get(ann, BY)) + "\0" + p.payloadSha)))
  }

  function MacOf(h: Hashes, key: string, p: Pending, ann: Annotations): (r: string)
    ensures |r| == 64
  {
    Hex(h.hmac(key, MacText(h, p, ann)))
  }

  /** VerifyMAC: None when the stamp verifies. */
  function VerifyMac(h: Hashes, key: string, p: Pending, ann: Annotations): Option<Error> {
    if key == "" then Some(NoKey)
    else
      match UnHex(Get(ann, MAC))
      case None => Some(BadMac)
      case Some(got) =>
        if |got| != 32 then Some(BadMac)
        else if Some(got) != UnHex(MacOf(h, key, p, ann)) then Some(BadMac)
        else None
  }

  /** Stamp. */
  function Stamp(c: Codec, h: Hashes, username: string, groups: multiset<string>): Result<string, Error> {
    if c.blank(username) then Err(NoUsername)
    else Ok(c.encodeApprover(Approver(username, Sha256Hex(h, c.groupsText(groups)))))
  }

  function ParseApprover(c: Codec, s: string): Result<Approver, Error> {
    match c.decodeApprover(s)
    case None => Err(BadApprover)
    case Some(a) => if a.username == "" || |a.groupsSha| != 64 then Err(BadApprover) else Ok(a)
  }

  // --------------------------------------------------------- client fields

  function ParseEdit(c: Codec, s: string): Result<EditedAction, Error> {
    if |s| > MAX_EDIT_BYTES then Err(EditTooLong)
    else
      match c.decodeEdit(s)
      case None => Err(EditUnreadable)
      case Some(e) =>
        if c.blank(e.name) then Err(EditNoName)
        else if |e.name| > MAX_ACTION_NAME_BYTES then Err(EditNameTooLong)
        else if |e.description| > MAX_DESCRIPTION_BYTES then Err(EditDescriptionTooLong)
        else Ok(e)
  }

  /** validateFields: the label and the edit. */
  function ValidateFields(c: Codec, ann: Annotations): Result<(string, Option<EditedAction>), Error> {
    var verdict, reason := Get(ann, DECISION), Get(ann, REASON);
    if verdict !in {APPROVE, REJECT, EDITED} then Err(BadLabel)
    else if |reason| > MAX_REASON_BYTES || !c.utf8(reason) then Err(BadReason)
    else if verdict != EDITED then if EDIT in ann then Err(EditNotAllowed) else Ok((verdict, None))
    else if EDIT !in ann then Err(EditMissing)
    else
      match ParseEdit(c, ann[EDIT])
      case Err(e) => Err(e)
      case Ok(e) => Ok((verdict, Some(e)))
  }

  // ---------------------------------------------------------- read and admit

  /** Read: Ok(None) when there is no decision for this pending action. */
  function Read(c: Codec, h: Hashes, ann: Annotations, p: Pending, key: string): Result<Option<Decision>, Error> {
    var raw := Get(ann, BY);
    if Get(ann, DECISION) == "" || p.id == "" then Ok(None)
    else if raw == "" then Err(Unstamped)
    else if Get(ann, FOR) != p.id then Ok(None)
    else
      match VerifyMac(h, key, p, ann)
      case Some(e) => Err(e)
      case None =>
        match ParseApprover(c, raw)
        case Err(e) => Err(e)
        case Ok(approver) =>
          match ValidateFields(c, ann)
          case Err(e) => Err(e)
          case Ok((verdict, edit)) => Ok(Some(Decision(verdict, Get(ann, REASON), edit, approver, raw, p.id)))
  }

  predicate SameKey(a: Annotations, b: Annotations, k: string) {
    Get(a, k) == Get(b, k) && (k in a <==> k in b)
  }

  /** The six protocol annotations agree, presence included. */
  predicate SameProtocol(a: Annotations, b: Annotations) {
    forall i | 0 <= i < |PROTOCOL_KEYS| :: SameKey(a, b, PROTOCOL_KEYS[i])
  }

  predicate SetsStamp(prev: Annotations, ann: Annotations, k: string) {
    Get(ann, k) != "" && Get(ann, k) != Get(prev, k)
  }

  predicate ForgesStamp(prev: Annotations, ann: Annotations) {
    exists i | 0 <= i < |STAMP_KEYS| :: SetsStamp(prev, ann, STAMP_KEYS[i])
  }

  function Stamped(h: Hashes, key: string, p: Pending, stamp: string, ann: Annotations): Annotations {
    var bound := ann[BY := stamp][FOR := p.id];
    bound[MAC := MacOf(h, key, p, bound)]
  }

  /** What Admit makes of an update, or why it refuses it. */
  function Admitted(c: Codec, h: Hashes, prev: Annotations, ann: Annotations, p: Pending, username: string,
                    groups: multiset<string>, key: string)
    : Result<Annotations, Error>
  {
    if SameProtocol(prev, ann) then Ok(ann)
    else if ForgesStamp(prev, ann) then Err(Forged)
    else if Get(prev, DECISION) != "" && p.id != "" && Get(prev, FOR) == p.id then Err(Final)
    else if Get(ann, DECISION) == "" then
      if Get(ann, BY) != "" || Get(ann, FOR) != "" || Get(ann, MAC) != "" then Err(ClearTogether) else Ok(ann)
    else if p.id == "" then Err(NoPending)
    else
      match ValidateFields(c, ann)
      case Err(e) => Err(e)
      case Ok(_) =>
        if key == "" then Err(NoKey)
        else
          match Stamp(c, h, username, groups)
          case Err(e) => Err(e)
          case Ok(stamp) => Ok(Stamped(h, key, p, stamp, ann))
  }

  /** A map[string]string that is changed in place. */
  class AnnotationMap {
    var m: Annotations

    constructor (m: Annotations)
      ensures this.m == m
    {
      this.m := m;
    }
  }

  /** Admit. */
  method Admit(c: Codec, h: Hashes, oldAnn: Annotations, newAnn: AnnotationMap, p: Pending, username: string,
               groups: multiset<string>, key: string)
    returns (err: Option<Error>)
    modifies newAnn
    ensures match Admitted(c, h, oldAnn, old(newAnn.m), p, username, groups, key)
            case Ok(ann) => err.None? && newAnn.m == ann
            case Err(e) => err == Some(e) && newAnn.m == old(newAnn.m)
  {
    var changed := false;
    for i := 0 to |PROTOCOL_KEYS|
      invariant changed <==> exists j | 0 <= j < i :: !SameKey(oldAnn, newAnn.m, PROTOCOL_KEYS[j])
    {
      var k := PROTOCOL_KEYS[i];
      if Get(oldAnn, k) != Get(newAnn.m, k) || (k in oldAnn) != (k in newAnn.m) {
        changed := true;
      }
    }
    if !changed {
      return None;
    }
    for i := 0 to |STAMP_KEYS|
      invariant forall j | 0 <= j < i :: !SetsStamp(oldAnn, newAnn.m, STAMP_KEYS[j])
    {
      var k := STAMP_KEYS[i];
      if Get(newAnn.m, k) != "" && Get(newAnn.m, k) != Get(oldAnn, k) {
        assert SetsStamp(oldAnn, newAnn.m, STAMP_KEYS[i]);
        return Some(Forged);
      }
    }
    if Get(oldAnn, DECISION) != "" && p.id != "" && Get(oldAnn, FOR) == p.id {
      return Some(Final);
    }
    if Get(newAnn.m, DECISION) == "" {
      if Get(newAnn.m, BY) != "" || Get(newAnn.m, FOR) != "" || Get(newAnn.m, MAC) != "" {
        return Some(ClearTogether);
      }
      return None;
    }
    if p.id == "" {
      return Some(NoPending);
    }
    var fields := ValidateFields(c, newAnn.m);
    if fields.Err? {
      return Some(fields.error);
    }
    if key == "" {
      return Some(NoKey);
    }
    var stamp := Stamp(c, h, username, groups);
    if stamp.Err? {
      return Some(stamp.error);
    }
    newAnn.m := newAnn.m[BY := stamp.value];
    newAnn.m := newAnn.m[FOR := p.id];
    newAnn.m := newAnn.m[MAC := MacOf(h, key, p, newAnn.m)];
    return None;
  }

  // -------------------------------------------------------------- pending ids

  /** pendingID: the first 16 bytes of a digest, in hexadecimal. */
  datatype Origin = FromReceipt(entryHash: Digest) | NoReceipt(inputHash: string, time: string, proposal: string)

  function OriginText(uid: string, o: Origin): string {
    "clawdlinux.org/pending-id/v1" + "\0" + (uid + "\0" +
    match o
    case FromReceipt(d) => "receipt" + "\0" + Hex(d)
    case NoReceipt(inputHash, time, proposal) => "no-receipt" + "\0" + (inputHash + "\0" + (time + "\0" + proposal)))
  }

  function PendingId(h: Hashes, uid: string, o: Origin): (id: string)
    ensures |id| == 32
  {
    Hex(Short(h.sha256(OriginText(uid, o))))
  }

  function Short(d: Digest): (s: string)
    ensures |s| == 16 && IsBytes(s)
  {
    d[..16]
  }
}
