/** Properties of the approval annotation protocol. */
module ApprovalProofs {
  import opened Text
  import opened Crypto
  import opened Approval

  // ------------------------------------------------------------- small facts

  lemma {:induction false} KeysDistinct()
    ensures forall i, k | 0 <= i < k < |PROTOCOL_KEYS| :: PROTOCOL_KEYS[i] != PROTOCOL_KEYS[k]
  {
    assert |DECISION| == 32 && |REASON| == 30 && |EDIT| == 28 && |BY| == 26 && |FOR| == 27 && |MAC| == 27;
    assert FOR[24] == 'f' && MAC[24] == 'm';
  }

  lemma {:induction false} HexIsHexText(b: string)
    requires IsBytes(b)
    ensures IsHexText(Hex(b))
  {
    if b != "" {
      HexIsHexText(b[1..]);
      HexDigitValue(b[0] as int / 16);
      HexDigitValue(b[0] as int % 16);
    }
  }

  /** A digest stamped into the approver survives the JSON round trip. */
  lemma {:induction false} StampParses(c: Codec, h: Hashes, username: string, groups: multiset<string>)
    requires Lawful(c) && !c.blank(username)
    ensures var raw := c.encodeApprover(Approver(username, Sha256Hex(h, c.groupsText(groups))));
            raw != "" && ParseApprover(c, raw) == Ok(Approver(c.repair(username), Sha256Hex(h, c.groupsText(groups))))
  {
    var sha := Sha256Hex(h, c.groupsText(groups));
    HexIsHexText(h.sha256(c.groupsText(groups)));
    assert ReadsBack(c, Approver(username, sha)) && Repairs(c, sha) && Repairs(c, username);
  }

  // ------------------------------------------------------- what a stamp says

  /** The annotations carry a decision for p with a stamp that verifies. */
  ghost predicate StampedFor(c: Codec, h: Hashes, key: string, ann: Annotations, p: Pending) {
    && Get(ann, DECISION) != "" && p.id != "" && key != ""
    && Get(ann, FOR) == p.id && Get(ann, BY) != "" && Get(ann, MAC) == MacOf(h, key, p, ann)
    && ParseApprover(c, Get(ann, BY)).Ok? && ValidateFields(c, ann).Ok?
  }

  /** No decision, and no stamp left over. */
  predicate Undecided(ann: Annotations) {
    Get(ann, DECISION) == "" && Get(ann, BY) == "" && Get(ann, FOR) == "" && Get(ann, MAC) == ""
  }

  /** Every decision is stamped for one of the known pending actions. */
  ghost predicate StampOk(c: Codec, h: Hashes, key: string, ann: Annotations, known: map<string, Pending>) {
    Undecided(ann) || (Get(ann, FOR) in known && StampedFor(c, h, key, ann, known[Get(ann, FOR)]))
  }

  /** Only the six protocol annotations matter. */
  lemma {:induction false} OnlyProtocolKeysMatter(c: Codec, h: Hashes, key: string, a: Annotations, b: Annotations,
                                                  p: Pending)
    requires SameProtocol(a, b)
    ensures Read(c, h, a, p, key) == Read(c, h, b, p, key)
    ensures StampedFor(c, h, key, a, p) <==> StampedFor(c, h, key, b, p)
    ensures Undecided(a) <==> Undecided(b)
    ensures Get(a, FOR) == Get(b, FOR) && Get(a, DECISION) == Get(b, DECISION)
  {
    assert SameKey(a, b, PROTOCOL_KEYS[0]) && SameKey(a, b, PROTOCOL_KEYS[1]) && SameKey(a, b, PROTOCOL_KEYS[2]);
    assert SameKey(a, b, PROTOCOL_KEYS[3]) && SameKey(a, b, PROTOCOL_KEYS[4]) && SameKey(a, b, PROTOCOL_KEYS[5]);
    assert DecisionText(a) == DecisionText(b);
    assert ValidateFields(c, a) == ValidateFields(c, b);
    hide ValidateFields, DecisionText;
  }

  lemma {:induction false} StampOkOfSameProtocol(c: Codec, h: Hashes, key: string, a: Annotations, b: Annotations,
                                                 known: map<string, Pending>)
    requires SameProtocol(a, b) && StampOk(c, h, key, a, known)
    ensures StampOk(c, h, key, b, known)
  {
    if Get(a, FOR) in known {
      OnlyProtocolKeysMatter(c, h, key, a, b, known[Get(a, FOR)]);
    } else {
      OnlyProtocolKeysMatter(c, h, key, a, b, Pending("", "", ""));
    }
    hide StampedFor;
  }

  /** A verified stamp is read back as exactly the stamped decision. */
  lemma {:induction false} ReadStamped(c: Codec, h: Hashes, key: string, ann: Annotations, p: Pending)
    requires StampedFor(c, h, key, ann, p)
    ensures var (verdict, edit) := ValidateFields(c, ann).value;
            Read(c, h, ann, p, key) ==
            Ok(Some(Decision(verdict, Get(ann, REASON), edit, ParseApprover(c, Get(ann, BY)).value, Get(ann, BY),
                             p.id)))
  {
    UnHexHex(h.hmac(key, MacText(h, p, ann)));
  }

  /** What the controller will read for an admitted update. */
  function DecisionOf(c: Codec, h: Hashes, ann: Annotations, p: Pending, username: string,
                      groups: multiset<string>): Decision
    requires ValidateFields(c, ann).Ok?
  {
    var (verdict, edit) := ValidateFields(c, ann).value;
    var sha := Sha256Hex(h, c.groupsText(groups));
    Decision(verdict, Get(ann, REASON), edit, Approver(c.repair(username), sha),
             c.encodeApprover(Approver(username, sha)), p.id)
  }

  lemma {:induction false} StampedLookups(h: Hashes, key: string, p: Pending, stamp: string, ann: Annotations)
    ensures var out := Stamped(h, key, p, stamp, ann);
            && Get(out, DECISION) == Get(ann, DECISION) && Get(out, REASON) == Get(ann, REASON) &&
               Get(out, EDIT) == Get(ann, EDIT)
            && (EDIT in out <==> EDIT in ann)
            && Get(out, BY) == stamp && Get(out, FOR) == p.id && Get(out, MAC) == MacOf(h, key, p, out)
  {
    KeysDistinct();
    assert PROTOCOL_KEYS[0] == DECISION && PROTOCOL_KEYS[1] == REASON && PROTOCOL_KEYS[2] == EDIT;
    assert PROTOCOL_KEYS[3] == BY && PROTOCOL_KEYS[4] == FOR && PROTOCOL_KEYS[5] == MAC;
    var bound := ann[BY := stamp][FOR := p.id];
    var out := Stamped(h, key, p, stamp, ann);
    assert DecisionText(bound) == DecisionText(out) && Get(bound, BY) == Get(out, BY);
  }

  /** An admitted new decision is stamped for the pending action, and is read
      back with the label, reason, edit and approver that were admitted. */
  lemma {:induction false} AdmitStamps(c: Codec, h: Hashes, prev: Annotations, ann: Annotations, p: Pending,
                                       username: string, groups: multiset<string>, key: string)
    requires Lawful(c) && Admitted(c, h, prev, ann, p, username, groups, key).Ok?
    requires !SameProtocol(prev, ann) && Get(ann, DECISION) != ""
    ensures var out := Admitted(c, h, prev, ann, p, username, groups, key).value;
            && ValidateFields(c, ann).Ok?
            && StampedFor(c, h, key, out, p)
            && Read(c, h, out, p, key) == Ok(Some(DecisionOf(c, h, ann, p, username, groups)))
  {
    StampParses(c, h, username, groups);
    var stamp := Stamp(c, h, username, groups).value;
    StampedLookups(h, key, p, stamp, ann);
    var out := Stamped(h, key, p, stamp, ann);
    assert ValidateFields(c, out) == ValidateFields(c, ann);
    hide Stamped, SameProtocol, ForgesStamp, ValidateFields;
    ReadStamped(c, h, key, out, p);
  }

  /** One admitted update keeps every decision stamped for a known action. */
  lemma {:induction false} AdmitKeepsStampOk(c: Codec, h: Hashes, prev: Annotations, ann: Annotations, p: Pending,
                                             username: string, groups: multiset<string>, key: string,
                                             known: map<string, Pending>)
    requires Lawful(c) && Admitted(c, h, prev, ann, p, username, groups, key).Ok?
    requires StampOk(c, h, key, prev, known)
    requires p.id == "" || (p.id in known && known[p.id] == p)
    ensures StampOk(c, h, key, Admitted(c, h, prev, ann, p, username, groups, key).value, known)
  {
    if SameProtocol(prev, ann) {
      StampOkOfSameProtocol(c, h, key, prev, ann, known);
    } else if Get(ann, DECISION) != "" {
      AdmitStamps(c, h, prev, ann, p, username, groups, key);
    }
    hide SameProtocol, ForgesStamp, ValidateFields, Stamped;
  }

  /** With every decision stamped, reading never refuses: there is a decision for
      the pending action exactly when one is stamped for it. So ErrUnstamped,
      ErrBadMAC and ErrNoKey cannot happen. */
  lemma {:induction false} ReadNeverRefuses(c: Codec, h: Hashes, key: string, ann: Annotations,
                                            known: map<string, Pending>, p: Pending)
    requires StampOk(c, h, key, ann, known)
    requires p.id == "" || (p.id in known && known[p.id] == p)
    ensures Read(c, h, ann, p, key).Ok?
    ensures Read(c, h, ann, p, key).value.Some? <==> StampedFor(c, h, key, ann, p)
  {
    if Get(ann, DECISION) != "" && p.id != "" && Get(ann, FOR) == p.id {
      ReadStamped(c, h, key, ann, p);
    }
    hide ValidateFields;
  }

  /** Once stamped for the pending action, an update is admitted only if it leaves
      all six protocol annotations alone. */
  lemma {:induction false} AppendOnce(c: Codec, h: Hashes, prev: Annotations, ann: Annotations, p: Pending,
                                      username: string, groups: multiset<string>, key: string)
    requires StampedFor(c, h, key, prev, p)
    ensures Admitted(c, h, prev, ann, p, username, groups, key).Ok? <==> SameProtocol(prev, ann)
    ensures Admitted(c, h, prev, ann, p, username, groups, key).Ok? ==>
              Admitted(c, h, prev, ann, p, username, groups, key).value == ann
  {
    hide SameProtocol, ForgesStamp, ValidateFields, Stamped;
  }

  // --------------------------------------------------------- runs of updates

  /** One request to change the annotations, and the pending action at that time. */
  datatype Update = Update(ann: Annotations, p: Pending, username: string, groups: multiset<string>)

  function Try(c: Codec, h: Hashes, key: string, prev: Annotations, u: Update): Annotations {
    match Admitted(c, h, prev, u.ann, u.p, u.username, u.groups, key)
    case Ok(out) => out
    case Err(_) => prev
  }

  /** The stored annotations after these requests, from none at all. */
  function Reached(c: Codec, h: Hashes, key: string, us: seq<Update>): Annotations {
    if us == [] then map[] else Try(c, h, key, Reached(c, h, key, us[..|us| - 1]), us[|us| - 1])
  }

  /** The annotations hold exactly the decision that request u asked for, with
      all three stamps. */
  ghost predicate CameFrom(c: Codec, h: Hashes, key: string, u: Update, ann: Annotations) {
    && ValidateFields(c, u.ann).Ok?
    && StampedFor(c, h, key, ann, u.p)
    && Read(c, h, ann, u.p, key) == Ok(Some(DecisionOf(c, h, u.ann, u.p, u.username, u.groups)))
  }

  ghost predicate CameFromOne(c: Codec, h: Hashes, key: string, us: seq<Update>, ann: Annotations) {
    exists k | 0 <= k < |us| :: CameFrom(c, h, key, us[k], ann)
  }

  /** In every annotation state reachable through Admit under one key, either
      there is no decision and no stamp, or one of the requests asked for the
      decision, it carries all three stamps, and reading it for the pending
      action of that request gives exactly what was admitted. */
  lemma {:induction false} StampInvariant(c: Codec, h: Hashes, key: string, us: seq<Update>)
    requires Lawful(c)
    ensures Undecided(Reached(c, h, key, us)) || CameFromOne(c, h, key, us, Reached(c, h, key, us))
  {
    if us != [] {
      var init, u := us[..|us| - 1], us[|us| - 1];
      StampInvariant(c, h, key, init);
      var prev, now := Reached(c, h, key, init), Reached(c, h, key, us);
      var got := Admitted(c, h, prev, u.ann, u.p, u.username, u.groups, key);
      if got.Ok? && !SameProtocol(prev, u.ann) {
        if Get(u.ann, DECISION) != "" {
          AdmitStamps(c, h, prev, u.ann, u.p, u.username, u.groups, key);
          assert CameFrom(c, h, key, us[|us| - 1], now);
        }
      } else {
        hide Reached, Admitted, Read, StampedFor, ValidateFields, CameFrom;
        OnlyProtocolKeysMatter(c, h, key, prev, now, Pending("", "", ""));
        if !Undecided(prev) {
          var k :| 0 <= k < |init| && CameFrom(c, h, key, init[k], prev);
          KeepsCause(c, h, key, us[k], prev, now);
        }
      }
    }
  }

  lemma {:induction false} KeepsCause(c: Codec, h: Hashes, key: string, u: Update, prev: Annotations, now: Annotations)
    requires SameProtocol(prev, now) && CameFrom(c, h, key, u, prev)
    ensures CameFrom(c, h, key, u, now)
  {
    OnlyProtocolKeysMatter(c, h, key, prev, now, u.p);
  }

  /** While one pending action stays, no run of requests changes a decision that
      is stamped for it. */
  lemma {:induction false} DecisionIsFinal(c: Codec, h: Hashes, key: string, us: seq<Update>, more: seq<Update>,
                                           p: Pending)
    requires StampedFor(c, h, key, Reached(c, h, key, us), p)
    requires forall i | 0 <= i < |more| :: more[i].p == p
    ensures SameProtocol(Reached(c, h, key, us), Reached(c, h, key, us + more))
    ensures Read(c, h, Reached(c, h, key, us + more), p, key) == Read(c, h, Reached(c, h, key, us), p, key)
  {
    if more == [] {
      assert us + more == us;
    } else {
      var init, u := more[..|more| - 1], more[|more| - 1];
      assert (us + more)[..|us + more| - 1] == us + init && (us + more)[|us + more| - 1] == u;
      DecisionIsFinal(c, h, key, us, init, p);
      var first, prev := Reached(c, h, key, us), Reached(c, h, key, us + init);
      OnlyProtocolKeysMatter(c, h, key, first, prev, p);
      AppendOnce(c, h, prev, u.ann, p, u.username, u.groups, key);
      OnlyProtocolKeysMatter(c, h, key, first, Reached(c, h, key, us + more), p);
    }
  }

  // ------------------------------------------------------- digest injectivity

  /** On validated decisions the NUL-joined text splits back into one label, one
      reason and one edit, even when the reason holds NULs. */
  lemma {:induction false} DecisionTextInjective(c: Codec, a: Annotations, b: Annotations)
    requires Lawful(c) && ValidateFields(c, a).Ok? && ValidateFields(c, b).Ok?
    requires DecisionText(a) == DecisionText(b)
    ensures Get(a, DECISION) == Get(b, DECISION) && Get(a, REASON) == Get(b, REASON) && Get(a, EDIT) == Get(b, EDIT)
    ensures ValidateFields(c, a) == ValidateFields(c, b)
  {
    var ra, rb := Get(a, REASON) + "\0" + Get(a, EDIT), Get(b, REASON) + "\0" + Get(b, EDIT);
    SplitTail(DECISION_DOMAIN + "\0", Get(a, DECISION) + "\0" + ra, DECISION_DOMAIN + "\0",
              Get(b, DECISION) + "\0" + rb);
    assert '\0' !in APPROVE && '\0' !in REJECT && '\0' !in EDITED;
    SplitFirst(Get(a, DECISION), ra, Get(b, DECISION), rb);
    SplitLast(Get(a, REASON), Get(a, EDIT), Get(b, REASON), Get(b, EDIT));
  }

  /** The no-edit rule is needed: without it one text belongs to two decisions. */
  lemma {:induction false} EditRuleIsNeeded(c: Codec)
    requires c.utf8("x\0y")
    ensures var a := map[DECISION := APPROVE, REASON := "x\0y"];
            var b := map[DECISION := APPROVE, REASON := "x", EDIT := "y\0"];
            && DecisionText(a) == DecisionText(b) && Get(a, REASON) != Get(b, REASON)
            && ValidateFields(c, a).Ok? && ValidateFields(c, b).Err?
  {
    KeysDistinct();
    assert PROTOCOL_KEYS[0] == DECISION && PROTOCOL_KEYS[1] == REASON && PROTOCOL_KEYS[2] == EDIT;
    assert "x\0y" + "\0" + "" == "x" + "\0" + "y\0";
  }

  /** Two different texts with one stamp. */
  ghost predicate MacCollision(h: Hashes, key: string, x: string, y: string) {
    x != y && h.hmac(key, x) == h.hmac(key, y)
  }

  /** A stamp binds the workload, the pending action, its payload, the decision
      and the approver: equal stamps bind equal values, or here is a collision. */
  lemma {:induction false} MacBinds(c: Codec, h: Hashes, key: string, p: Pending, a: Annotations, q: Pending,
                                    b: Annotations)
    requires Lawful(c) && ValidateFields(c, a).Ok? && ValidateFields(c, b).Ok?
    requires '\0' !in p.id && '\0' !in q.id && |p.payloadSha| == |q.payloadSha|
    requires MacOf(h, key, p, a) == MacOf(h, key, q, b)
    ensures || MacCollision(h, key, MacText(h, p, a), MacText(h, q, b))
            || Collision(h, DecisionText(a), DecisionText(b))
            || Collision(h, Get(a, BY), Get(b, BY))
            || (p == q && ValidateFields(c, a) == ValidateFields(c, b) && Get(a, REASON) == Get(b, REASON) &&
                Get(a, BY) == Get(b, BY))
  {
    UnHexHex(h.hmac(key, MacText(h, p, a)));
    UnHexHex(h.hmac(key, MacText(h, q, b)));
    if MacText(h, p, a) == MacText(h, q, b) {
      MacTextSplits(h, p, a, q, b);
      Sha256HexEqual(h, DecisionText(a), DecisionText(b));
      Sha256HexEqual(h, Get(a, BY), Get(b, BY));
      if DecisionText(a) == DecisionText(b) {
        DecisionTextInjective(c, a, b);
      }
    }
  }

  lemma {:induction false} MacTextSplits(h: Hashes, p: Pending, a: Annotations, q: Pending, b: Annotations)
    requires '\0' !in p.id && '\0' !in q.id && |p.payloadSha| == |q.payloadSha|
    requires MacText(h, p, a) == MacText(h, q, b)
    ensures p == q && DecisionSha(h, a) == DecisionSha(h, b) && Sha256Hex(h, Get(a, BY)) == Sha256Hex(h, Get(b, BY))
  {
    var da, db, sa, sb := DecisionSha(h, a), DecisionSha(h, b), Sha256Hex(h, Get(a, BY)), Sha256Hex(h, Get(b, BY));
    hide DecisionSha, Sha256Hex;
    var ta, tb := sa + "\0" + p.payloadSha, sb + "\0" + q.payloadSha;
    var xa, xb := p.uid + "\0" + p.id, q.uid + "\0" + q.id;
    SplitTail(MAC_DOMAIN + "\0", xa + "\0" + (da + "\0" + ta), MAC_DOMAIN + "\0", xb + "\0" + (db + "\0" + tb));
    SplitTail(xa + "\0", da + "\0" + ta, xb + "\0", db + "\0" + tb);
    SplitTail(xa, "\0", xb, "\0");
    SplitTail(da + "\0", ta, db + "\0", tb);
    SplitTail(da, "\0", db, "\0");
    SplitTail(sa + "\0", p.payloadSha, sb + "\0", q.payloadSha);
    SplitTail(sa, "\0", sb, "\0");
    SplitLast(p.uid, p.id, q.uid, q.id);
  }

  // -------------------------------------------------------------- pending ids

  predicate Plain(o: Origin) {
    o.NoReceipt? ==> '\0' !in o.inputHash && '\0' !in o.time
  }

  /** Two inputs of SHA-256 whose digests start with the same 16 bytes. */
  ghost predicate ShortCollision(h: Hashes, x: string, y: string) {
    x != y && Short(h.sha256(x)) == Short(h.sha256(y))
  }

  /** A pending id names one workload and one decision: two equal ids come from
      the same workload and the same receipt (or the same input, time and
      proposal), or here are two inputs whose digests share 16 bytes. */
  lemma {:induction false} PendingIdBinds(h: Hashes, u: string, o: Origin, v: string, q: Origin)
    requires '\0' !in u && '\0' !in v && Plain(o) && Plain(q)
    requires PendingId(h, u, o) == PendingId(h, v, q)
    ensures ShortCollision(h, OriginText(u, o), OriginText(v, q)) || (u == v && o == q)
  {
    UnHexHex(Short(h.sha256(OriginText(u, o))));
    UnHexHex(Short(h.sha256(OriginText(v, q))));
    if OriginText(u, o) == OriginText(v, q) {
      OriginTextSplits(u, o, v, q);
    }
  }

  function OriginTail(o: Origin): string {
    match o
    case FromReceipt(d) => "receipt" + "\0" + Hex(d)
    case NoReceipt(inputHash, time, proposal) => "no-receipt" + "\0" + (inputHash + "\0" + (time + "\0" + proposal))
  }

  lemma {:induction false} OriginTextSplits(u: string, o: Origin, v: string, q: Origin)
    requires '\0' !in u && '\0' !in v && Plain(o) && Plain(q)
    requires OriginText(u, o) == OriginText(v, q)
    ensures u == v && o == q
  {
    var prefix := "clawdlinux.org/pending-id/v1" + "\0";
    SplitTail(prefix, u + "\0" + OriginTail(o), prefix, v + "\0" + OriginTail(q));
    SplitFirst(u, OriginTail(o), v, OriginTail(q));
    hide Hex;
    match (o, q)
    case (FromReceipt(d), FromReceipt(e)) =>
      SplitFirst("receipt", Hex(d), "receipt", Hex(e));
      UnHexHex(d);
      UnHexHex(e);
    case (NoReceipt(i, t, r), NoReceipt(j, s, w)) =>
      SplitFirst("no-receipt", i + "\0" + (t + "\0" + r), "no-receipt", j + "\0" + (s + "\0" + w));
      SplitFirst(i, t + "\0" + r, j, s + "\0" + w);
      SplitFirst(t, r, s, w);
    case (FromReceipt(d), NoReceipt(i, t, r)) =>
      SplitFirst("receipt", Hex(d), "no-receipt", i + "\0" + (t + "\0" + r));
    case (NoReceipt(i, t, r), FromReceipt(d)) =>
      SplitFirst("no-receipt", i + "\0" + (t + "\0" + r), "receipt", Hex(d));
  }

  // ------------------------------------------- the library laws can be met

  /** A self-delimiting text of an approver: as many ones as the name is long. */
  function SampleEncode(a: Approver): string {
    seq(|a.username|, _ => '1') + "0" + (a.username + a.groupsSha)
  }

  function LeadingOnes(s: string): (n: nat)
    ensures n <= |s|
  {
    if s == "" || s[0] != '1' then 0 else 1 + LeadingOnes(s[1..])
  }

  function SampleDecode(s: string): Option<Approver> {
    var n := LeadingOnes(s);
    if 2 * n + 1 > |s| then None else Some(Approver(s[n + 1..2 * n + 1], s[2 * n + 1..]))
  }

  lemma {:induction false} OnesAreCounted(n: nat, rest: string)
    ensures LeadingOnes(seq(n, _ => '1') + "0" + rest) == n
  {
    var ones := seq(n, _ => '1');
    if n > 0 {
      OnesAreCounted(n - 1, rest);
      assert (ones + "0" + rest)[1..] == seq(n - 1, _ => '1') + "0" + rest;
    } else {
      assert ones + "0" + rest == "0" + rest;
    }
  }

  lemma {:induction false} SampleRoundTrip(a: Approver)
    ensures SampleDecode(SampleEncode(a)) == Some(a)
  {
    var n, rest := |a.username|, a.username + a.groupsSha;
    OnesAreCounted(n, rest);
    var s := SampleEncode(a);
    assert s[n + 1..2 * n + 1] == a.username && s[2 * n + 1..] == a.groupsSha;
  }

  function SampleCodec(): Codec {
    Codec(s => true, s => s, s => s == "", g => "", SampleEncode, SampleDecode, s => None)
  }

  /** The laws assumed of the JSON and UTF-8 libraries do not contradict one another. */
  lemma {:induction false} LawsAreConsistent()
    ensures Lawful(SampleCodec())
  {
    forall a: Approver
      ensures ReadsBack(SampleCodec(), a)
    {
      SampleRoundTrip(a);
    }
    hide SampleEncode, SampleDecode;
  }
}
