/** What the approval protocol promises, written down without its code: when a
    stamp verifies, what a decision says, what is read, and what is admitted.
  */
module ApprovalMeaning {
  import opened Text
  import opened Crypto
  import opened Approval
  import ApprovalProofs
  import Webhook
  import Workload

  /** These texts, with a NUL between them. */
  function Nul(parts: seq<string>): string {
    Join(parts, "\0")
  }

  lemma {:induction false} JoinMore(x: string, rest: seq<string>, sep: string)
    requires rest != []
    ensures Join([x] + rest, sep) == x + sep + Join(rest, sep)
  {
    assert ([x] + rest)[1..] == rest;
  }

  // ------------------------------------------------------------- the stamp

  /** The text a stamp authenticates: the workload, the pending id, the decision as
      the client set it, the approver and the pending proposal. */
  function Authenticated(h: Hashes, uid: string, id: string, proposal: string, ann: Annotations): string {
    Nul(["clawdlinux.org/approval-stamp/v1", uid, id,
         Hex(h.sha256(Nul(["clawdlinux.org/approval-decision/v1", Get(ann, DECISION), Get(ann, REASON),
                           Get(ann, EDIT)]))),
         Hex(h.sha256(Get(ann, BY))),
         Hex(h.sha256(Nul(["clawdlinux.org/approval-pending-payload/v1", proposal])))])
  }

  /** The stamp is the keyed digest of that text. */
  predicate StampVerifies(h: Hashes, key: string, uid: string, id: string, proposal: string, ann: Annotations) {
    key != "" && UnHex(Get(ann, MAC)) == Some(h.hmac(key, Authenticated(h, uid, id, proposal, ann)))
  }

  lemma {:induction false} NulOfTwo(a: string, b: string)
    ensures Nul([a, b]) == a + "\0" + b
  {
    JoinMore(a, [b], "\0");
    assert [a] + [b] == [a, b];
  }

  lemma {:induction false} NulOfFour(a: string, b: string, c: string, d: string)
    ensures Nul([a, b, c, d]) == a + "\0" + (b + "\0" + (c + "\0" + d))
  {
    NulOfTwo(c, d);
    JoinMore(b, [c, d], "\0");
    JoinMore(a, [b, c, d], "\0");
    assert [b] + [c, d] == [b, c, d] && [a] + [b, c, d] == [a, b, c, d];
  }

  lemma {:induction false} NulOfSix(a: string, b: string, c: string, d: string, e: string, f: string)
    ensures Nul([a, b, c, d, e, f]) == a + "\0" + (b + "\0" + c + "\0" + (d + "\0" + (e + "\0" + f)))
  {
    NulOfFour(c, d, e, f);
    JoinMore(b, [c, d, e, f], "\0");
    JoinMore(a, [b, c, d, e, f], "\0");
    assert [b] + [c, d, e, f] == [b, c, d, e, f] && [a] + [b, c, d, e, f] == [a, b, c, d, e, f];
    var tail := d + "\0" + (e + "\0" + f);
    assert b + "\0" + (c + "\0" + tail) == b + "\0" + c + "\0" + tail;
  }

  lemma {:induction false} AuthenticatedText(h: Hashes, uid: string, id: string, proposal: string, ann: Annotations)
    ensures Authenticated(h, uid, id, proposal, ann) == MacText(h, Pending(id, uid, PendingSha(h, proposal)), ann)
  {
    NulOfTwo(PENDING_DOMAIN, proposal);
    NulOfFour(DECISION_DOMAIN, Get(ann, DECISION), Get(ann, REASON), Get(ann, EDIT));
    hide Nul, Hex;
    NulOfSix(MAC_DOMAIN, uid, id, DecisionSha(h, ann), Sha256Hex(h, Get(ann, BY)), PendingSha(h, proposal));
  }

  /** VerifyMac accepts exactly the keyed digest of the authenticated text. */
  lemma {:induction false} VerifiesIff(h: Hashes, key: string, uid: string, id: string, proposal: string,
                                       ann: Annotations)
    ensures VerifyMac(h, key, Pending(id, uid, PendingSha(h, proposal)), ann).None? <==>
            StampVerifies(h, key, uid, id, proposal, ann)
  {
    var p := Pending(id, uid, PendingSha(h, proposal));
    AuthenticatedText(h, uid, id, proposal, ann);
    UnHexHex(h.hmac(key, MacText(h, p, ann)));
    hide Authenticated, MacText, Hex, UnHex, PendingSha;
  }

  // ------------------------------------------------------ what a decision says

  /** This text is an edit to action e. */
  predicate EditText(c: Codec, text: string, e: EditedAction) {
    && |text| <= 16384 && c.decodeEdit(text) == Some(e)
    && !c.blank(e.name) && |e.name| <= 253 && |e.description| <= 4096
  }

  /** The client fields are in order and say verdict: an edit comes with a new
      action, an approval or a rejection with none. */
  predicate Says(c: Codec, ann: Annotations, verdict: string, edit: Option<EditedAction>) {
    && Get(ann, DECISION) == verdict && |Get(ann, REASON)| <= 1024 && c.utf8(Get(ann, REASON))
    && match edit
       case None => (verdict == "approve" || verdict == "reject") && EDIT !in ann
       case Some(e) => verdict == "edit" && EDIT in ann && EditText(c, ann[EDIT], e)
  }

  lemma {:induction false} FieldsIff(c: Codec, ann: Annotations, verdict: string, edit: Option<EditedAction>)
    ensures ValidateFields(c, ann) == Ok((verdict, edit)) <==> Says(c, ann, verdict, edit)
  {
  }

  predicate ApproverText(c: Codec, text: string, a: Approver) {
    c.decodeApprover(text) == Some(a) && a.username != "" && |a.groupsSha| == 64
  }

  /** d is what the annotations say about this pending action, under a stamp that
      verifies. */
  predicate Carries(c: Codec, h: Hashes, key: string, uid: string, id: string, proposal: string, ann: Annotations,
                    d: Decision)
  {
    && id != "" && d.forId == id && Get(ann, FOR) == id
    && Get(ann, BY) != "" && d.approverRaw == Get(ann, BY) && ApproverText(c, d.approverRaw, d.approver)
    && StampVerifies(h, key, uid, id, proposal, ann)
    && Says(c, ann, d.verdict, d.edit) && d.reason == Get(ann, REASON)
  }

  /** Read returns exactly the decision that the annotations carry; and it finds
      none exactly when there is none, or one that is stamped for another action. */
  lemma {:induction false} ReadIff(c: Codec, h: Hashes, key: string, uid: string, id: string, proposal: string,
                                   ann: Annotations, d: Decision)
    ensures var r := Read(c, h, ann, Pending(id, uid, PendingSha(h, proposal)), key);
            && (r == Ok(Some(d)) <==> Carries(c, h, key, uid, id, proposal, ann, d))
            && (r == Ok(None) <==>
                Get(ann, DECISION) == "" || id == "" || (Get(ann, BY) != "" && Get(ann, FOR) != id))
  {
    var fields := ValidateFields(c, ann);
    VerifiesIff(h, key, uid, id, proposal, ann);
    FieldsIff(c, ann, d.verdict, d.edit);
    if fields.Ok? {
      FieldsIff(c, ann, fields.value.0, fields.value.1);
    }
    assert Says(c, ann, d.verdict, d.edit) ==> d.verdict != "";
    hide VerifyMac, ValidateFields, Says, StampVerifies, PendingSha;
  }

  /** The annotations hold a decision that should be for this pending action. */
  predicate Addressed(id: string, ann: Annotations) {
    Get(ann, DECISION) != "" && id != "" && Get(ann, BY) != "" && Get(ann, FOR) == id
  }

  /** Why reading refuses a decision: no stamp, no key, or a stamp that does not
      verify; anything else is in the fields. */
  lemma {:induction false} ReadRefusesIff(c: Codec, h: Hashes, key: string, uid: string, id: string, proposal: string,
                                          ann: Annotations)
    ensures var r := Read(c, h, ann, Pending(id, uid, PendingSha(h, proposal)), key);
            && (r == Err(Unstamped) <==> Get(ann, DECISION) != "" && id != "" && Get(ann, BY) == "")
            && (r == Err(NoKey) <==> Addressed(id, ann) && key == "")
            && (r == Err(BadMac) <==>
                Addressed(id, ann) && key != "" && !StampVerifies(h, key, uid, id, proposal, ann))
  {
    VerifiesIff(h, key, uid, id, proposal, ann);
    assert StampVerifies(h, key, uid, id, proposal, ann) ==> key != "";
    FieldErrors(c, ann);
    MacErrors(h, key, Pending(id, uid, PendingSha(h, proposal)), ann);
    hide VerifyMac, ValidateFields, StampVerifies, PendingSha;
  }

  lemma {:induction false} MacErrors(h: Hashes, key: string, p: Pending, ann: Annotations)
    ensures VerifyMac(h, key, p, ann).Some? ==> VerifyMac(h, key, p, ann) == Some(if key == "" then NoKey else BadMac)
  {
    hide MacText, Hex, UnHex;
  }

  // --------------------------------------------------------- what is admitted

  /** Some of the six protocol annotations differs, or is there in one only. */
  predicate Changes(prev: Annotations, ann: Annotations) {
    exists k | k in {DECISION, REASON, EDIT, BY, FOR, MAC} :: Get(prev, k) != Get(ann, k) || (k in prev) != (k in ann)
  }

  /** The request sets a stamp of its own. */
  predicate Forges(prev: Annotations, ann: Annotations) {
    exists k | k in {BY, FOR, MAC} :: Get(ann, k) != "" && Get(ann, k) != Get(prev, k)
  }

  /** The stored decision is for the pending action. */
  predicate Decided(prev: Annotations, id: string) {
    Get(prev, DECISION) != "" && id != "" && Get(prev, FOR) == id
  }

  predicate Clears(ann: Annotations) {
    Get(ann, DECISION) == "" && Get(ann, BY) == "" && Get(ann, FOR) == "" && Get(ann, MAC) == ""
  }

  ghost predicate WellSaid(c: Codec, ann: Annotations) {
    exists verdict, edit :: Says(c, ann, verdict, edit)
  }

  /** out is the request with the three stamps of the webhook: the approver it saw,
      the pending id, and the keyed digest that verifies. */
  ghost predicate StampedAs(c: Codec, h: Hashes, key: string, uid: string, id: string, proposal: string,
                            username: string, groups: multiset<string>, ann: Annotations, out: Annotations)
  {
    && out.Keys == ann.Keys + {BY, FOR, MAC}
    && (forall k | k in ann && k !in {BY, FOR, MAC} :: out[k] == ann[k])
    && out[BY] == c.encodeApprover(Approver(username, Hex(h.sha256(c.groupsText(groups))))) && out[FOR] == id
    && out[MAC] == Hex(h.hmac(key, Authenticated(h, uid, id, proposal, out)))
  }

  /** What an admitted request stores: itself when it changes no protocol
      annotation or clears a decision together with its stamps, and itself with
      fresh stamps when it decides the pending action; it may not bring stamps of
      its own, nor touch a decision of the pending action. */
  ghost predicate AdmittedTo(c: Codec, h: Hashes, prev: Annotations, ann: Annotations, uid: string, id: string,
                             proposal: string, username: string, groups: multiset<string>, key: string,
                             out: Annotations)
  {
    if !Changes(prev, ann) then out == ann
    else
      && !Forges(prev, ann) && !Decided(prev, id)
      && if Get(ann, DECISION) == "" then Clears(ann) && out == ann
         else id != "" && WellSaid(c, ann) && key != "" && !c.blank(username) &&
              StampedAs(c, h, key, uid, id, proposal, username, groups, ann, out)
  }

  lemma {:induction false} ChangesIff(prev: Annotations, ann: Annotations)
    ensures SameProtocol(prev, ann) <==> !Changes(prev, ann)
    ensures ForgesStamp(prev, ann) <==> Forges(prev, ann)
  {
    assert PROTOCOL_KEYS[0] == DECISION && PROTOCOL_KEYS[1] == REASON && PROTOCOL_KEYS[2] == EDIT;
    assert PROTOCOL_KEYS[3] == BY && PROTOCOL_KEYS[4] == FOR && PROTOCOL_KEYS[5] == MAC;
    assert STAMP_KEYS[0] == BY && STAMP_KEYS[1] == FOR && STAMP_KEYS[2] == MAC;
    assert !Changes(prev, ann) <==> forall i | 0 <= i < 6 :: SameKey(prev, ann, PROTOCOL_KEYS[i]);
    assert Forges(prev, ann) <==> exists i | 0 <= i < 3 :: SetsStamp(prev, ann, STAMP_KEYS[i]);
  }

  /** There is one such request. */
  lemma {:induction false} StampedOnce(c: Codec, h: Hashes, key: string, uid: string, id: string, proposal: string,
                                       username: string, groups: multiset<string>, ann: Annotations, a: Annotations,
                                       b: Annotations)
    requires StampedAs(c, h, key, uid, id, proposal, username, groups, ann, a)
    requires StampedAs(c, h, key, uid, id, proposal, username, groups, ann, b)
    ensures a == b
  {
    DistinctKeys();
    var p := Pending(id, uid, PendingSha(h, proposal));
    AuthenticatedText(h, uid, id, proposal, a);
    AuthenticatedText(h, uid, id, proposal, b);
    hide Authenticated, Hex, PendingSha, MacText;
    assert Get(a, DECISION) == Get(b, DECISION) && Get(a, REASON) == Get(b, REASON) && Get(a, EDIT) == Get(b, EDIT);
    SameText(h, p, a, b);
    assert forall k | k in a :: k in ann || k in {BY, FOR, MAC};
  }

  lemma {:induction false} DistinctKeys()
    ensures |{DECISION, REASON, EDIT, BY, FOR, MAC}| == 6
    ensures DECISION !in {REASON, EDIT, BY, FOR, MAC} && REASON !in {EDIT, BY, FOR, MAC} && EDIT !in {BY, FOR, MAC}
    ensures BY !in {FOR, MAC} && FOR != MAC
  {
    ApprovalProofs.KeysDistinct();
    assert PROTOCOL_KEYS[0] == DECISION && PROTOCOL_KEYS[1] == REASON && PROTOCOL_KEYS[2] == EDIT;
    assert PROTOCOL_KEYS[3] == BY && PROTOCOL_KEYS[4] == FOR && PROTOCOL_KEYS[5] == MAC;
  }

  lemma {:induction false} StampedMakes(c: Codec, h: Hashes, key: string, uid: string, id: string, proposal: string,
                                        username: string, groups: multiset<string>, ann: Annotations)
    ensures var stamp := c.encodeApprover(Approver(username, Sha256Hex(h, c.groupsText(groups))));
            StampedAs(c, h, key, uid, id, proposal, username, groups, ann,
                      Stamped(h, key, Pending(id, uid, PendingSha(h, proposal)), stamp, ann))
  {
    var p := Pending(id, uid, PendingSha(h, proposal));
    var stamp := c.encodeApprover(Approver(username, Sha256Hex(h, c.groupsText(groups))));
    DistinctKeys();
    ApprovalProofs.StampedLookups(h, key, p, stamp, ann);
    AuthenticatedText(h, uid, id, proposal, Stamped(h, key, p, stamp, ann));
    hide Authenticated, Hex, PendingSha, MacText;
  }

  lemma {:induction false} StampedIff(c: Codec, h: Hashes, key: string, uid: string, id: string, proposal: string,
                                      username: string, groups: multiset<string>, ann: Annotations, out: Annotations)
    ensures var stamp := c.encodeApprover(Approver(username, Sha256Hex(h, c.groupsText(groups))));
            StampedAs(c, h, key, uid, id, proposal, username, groups, ann, out) <==>
            out == Stamped(h, key, Pending(id, uid, PendingSha(h, proposal)), stamp, ann)
  {
    hide StampedAs, Stamped, Sha256Hex, PendingSha;
    var stamp := c.encodeApprover(Approver(username, Sha256Hex(h, c.groupsText(groups))));
    StampedMakes(c, h, key, uid, id, proposal, username, groups, ann);
    if StampedAs(c, h, key, uid, id, proposal, username, groups, ann, out) {
      StampedOnce(c, h, key, uid, id, proposal, username, groups, ann, out,
                  Stamped(h, key, Pending(id, uid, PendingSha(h, proposal)), stamp, ann));
    }
  }

  /** The stamp depends on the decision fields and the approver only. */
  lemma {:induction false} SameText(h: Hashes, p: Pending, a: Annotations, b: Annotations)
    requires Get(a, DECISION) == Get(b, DECISION) && Get(a, REASON) == Get(b, REASON) && Get(a, EDIT) == Get(b, EDIT)
    requires Get(a, BY) == Get(b, BY)
    ensures MacText(h, p, a) == MacText(h, p, b)
  {
  }

  /** Admit stores exactly what AdmittedTo says. It refuses as forged exactly the
      changes that bring stamps of their own, and as final exactly the others that
      touch a decision of the pending action. */
  lemma {:induction false} AdmitIff(c: Codec, h: Hashes, prev: Annotations, ann: Annotations, uid: string, id: string,
                                    proposal: string, username: string, groups: multiset<string>, key: string,
                                    out: Annotations)
    ensures var r := Admitted(c, h, prev, ann, Pending(id, uid, PendingSha(h, proposal)), username, groups, key);
            && (r == Ok(out) <==> AdmittedTo(c, h, prev, ann, uid, id, proposal, username, groups, key, out))
            && (r == Err(Forged) <==> Changes(prev, ann) && Forges(prev, ann))
            && (r == Err(Final) <==> Changes(prev, ann) && !Forges(prev, ann) && Decided(prev, id))
  {
    ChangesIff(prev, ann);
    StampedIff(c, h, key, uid, id, proposal, username, groups, ann, out);
    WellSaidIff(c, ann);
    FieldErrors(c, ann);
    hide SameProtocol, Changes, ForgesStamp, Forges, Stamped, StampedAs, ValidateFields, WellSaid, PendingSha;
  }

  lemma {:induction false} WellSaidIff(c: Codec, ann: Annotations)
    ensures WellSaid(c, ann) <==> ValidateFields(c, ann).Ok?
  {
    var fields := ValidateFields(c, ann);
    if fields.Ok? {
      FieldsIff(c, ann, fields.value.0, fields.value.1);
    }
    forall verdict, edit | Says(c, ann, verdict, edit)
      ensures fields.Ok?
    {
      FieldsIff(c, ann, verdict, edit);
    }
    hide ValidateFields, Says;
  }

  lemma {:induction false} FieldErrors(c: Codec, ann: Annotations)
    ensures ValidateFields(c, ann).Err? ==> ValidateFields(c, ann).error !in {Forged, Final, Unstamped, NoKey, BadMac}
  {
  }

  // -------------------------------------------------------- a client's update

  /** Without a pending action nothing can be stamped, so nothing else of it
      matters. */
  lemma {:induction false} NoPendingNoStamp(c: Codec, h: Hashes, prev: Annotations, ann: Annotations, p: Pending,
                                            q: Pending, username: string, groups: multiset<string>, key: string)
    requires p.id == "" && q.id == ""
    ensures Admitted(c, h, prev, ann, p, username, groups, key) == Admitted(c, h, prev, ann, q, username, groups, key)
  {
    hide SameProtocol, ForgesStamp, ValidateFields;
  }

  /** The spec may change as the object's state allows: never its type and its
      endpoint, and while an action waits, or is being acted on, none of the fields
      that shape its decision. */
  predicate MayBecome(o: Workload.Object, spec: Workload.Spec) {
    && spec.workloadType == o.spec.workloadType && spec.endpoint == o.spec.endpoint
    && (o.pending.Some? && (o.phase == "PendingApproval" || o.pending.value.state != Workload.Idle) ==>
          && spec.intent == o.spec.intent && spec.packs == o.spec.packs && spec.opaPolicy == o.spec.opaPolicy
          && spec.model == o.spec.model && spec.capture == o.spec.capture)
  }

  /** What a client's request makes of o: other annotations and another spec, with
      the strict policy mode when the request has none. A decision can be for the
      action that waits in the pending phase only. */
  ghost predicate UpdatesTo(c: Codec, h: Hashes, key: string, valid: Workload.Spec -> bool, o: Workload.Object,
                            r: Webhook.Request, o': Workload.Object)
  {
    && o' == o.(ann := o'.ann, spec := r.spec.(opaPolicy := o'.spec.opaPolicy))
    && o'.spec.opaPolicy == (if r.spec.opaPolicy == None then Some("strict") else r.spec.opaPolicy)
    && valid(o'.spec) && MayBecome(o, o'.spec)
    && if o.phase == "PendingApproval" && o.pending.Some? then
         AdmittedTo(c, h, o.ann, r.ann, o.uid, o.pending.value.content.id, o.pending.value.content.proposal, r.username,
                    r.groups, key, o'.ann)
       else AdmittedTo(c, h, o.ann, r.ann, "", "", "", r.username, r.groups, key, o'.ann)
  }

  lemma {:induction false} UpdateIff(c: Codec, h: Hashes, key: string, valid: Workload.Spec -> bool,
                                     o: Workload.Object, r: Webhook.Request, o': Workload.Object)
    ensures Webhook.Admitted(c, h, key, valid, o, r) == Some(o') <==> UpdatesTo(c, h, key, valid, o, r, o')
  {
    if o.phase == Workload.PENDING_APPROVAL && o.pending.Some? {
      var content := o.pending.value.content;
      AdmitIff(c, h, o.ann, r.ann, o.uid, content.id, content.proposal, r.username, r.groups, key, o'.ann);
    } else {
      NoPendingNoStamp(c, h, o.ann, r.ann, Pending("", "", ""), Pending("", "", PendingSha(h, "")), r.username,
                       r.groups, key);
      AdmitIff(c, h, o.ann, r.ann, "", "", "", r.username, r.groups, key, o'.ann);
    }
    hide AdmittedTo, Approval.Admitted, PendingSha;
  }
}
