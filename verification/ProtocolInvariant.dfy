/** What every step of the protocol keeps. */
module ProtocolInvariant {
  import opened Text
  import opened Workload
  import opened Governance
  import opened Protocol
  import Approval
  import ApprovalProofs
  import Decision
  import Invariants
  import Webhook

  // ---------------------------------------------------- stored versions

  /** The pending reference of every action that was ever held. */
  function Known(env: Env, uid: string, born: map<string, Birth>): map<string, Approval.Pending> {
    map id | id in born :: RefOf(env.hashes, uid, born[id].content)
  }

  /** A stored pending action is one that was born, as it was born; every stored
      decision is stamped for one that was born; and while an undecided action
      waits in the pending phase, the fields that shape its decision are those of
      its birth. */
  ghost predicate VersionOk(env: Env, uid: string, born: map<string, Birth>, o: Object) {
    && o.uid == uid
    && ApprovalProofs.StampOk(env.codec, env.hashes, env.key, o.ann, Known(env, uid, born))
    && (o.pending.Some? ==> PendingOk(born, o, o.pending.value.content))
  }

  predicate PendingOk(born: map<string, Birth>, o: Object, c: Content) {
    && c.id in born && born[c.id].content == c
    && (o.phase == PENDING_APPROVAL && !Consumed(o.last, o.consumed, c.id) ==> FrozenOf(o.spec) == born[c.id].frozen)
  }

  ghost predicate VersionsOk(env: Env, uid: string, born: map<string, Birth>, hist: seq<Object>) {
    hist != [] && forall i | 0 <= i < |hist| :: VersionOk(env, uid, born, hist[i])
  }

  // ------------------------------------------------------------ the books

  predicate Distinct(ids: seq<string>) {
    forall i, k | 0 <= i < k < |ids| :: ids[i] != ids[k]
  }

  /** The ids of the held calls, in order. */
  function CalledIds(held: seq<HeldCall>): (r: seq<string>)
    ensures |r| == |held|
  {
    seq(|held|, i requires 0 <= i < |held| => held[i].h.content.id)
  }

  /** The id and the result of every held call, in order. */
  function Replies(held: seq<HeldCall>): (r: seq<(string, bool)>)
    ensures |r| == |held|
  {
    seq(|held|, i requires 0 <= i < |held| => (held[i].h.content.id, held[i].ok))
  }

  predicate BooksOk(s: Sys) {
    && (forall id | id in s.born :: s.born[id].content.id == id && id in s.minted)
    && (forall id | id in s.commits :: id in s.born)
    && s.owner.Keys == s.commits.Keys
    && (forall id | id in s.finished :: id in s.born)
    && Distinct(s.finished)
    && (forall id | id in CalledIds(s.held) :: id in s.commits)
    && Distinct(CalledIds(s.held))
    && (forall id | id in s.finished :: id in s.ends)
    && (forall id | id in s.ends :: id in s.finished && EndOk(s.commits, Replies(s.held), id, s.ends[id]))
  }

  /** An ending says what happened: executed after a call that succeeded, failed
      after one that did not, rejected or denied without an Executing commit,
      unknown after one; and each has its phase. */
  predicate EndOk(commits: map<string, nat>, replies: seq<(string, bool)>, id: string, e: Ending) {
    match e.outcome
    case "executed" => e.phase == COMPLETED && e.verdict != Approval.REJECT && (id, true) in replies
    case "failed" => e.phase == FAILED && e.verdict != Approval.REJECT && (id, false) in replies
    case "rejected" => e.phase == REJECTED && e.verdict == Approval.REJECT && id !in commits
    case "denied" => e.phase == POLICY_DENIED && e.verdict != Approval.REJECT && id !in commits
    case "unknown" => e.phase == FAILED && id in commits
    case _ => false
  }

  /** The current version agrees with the books: its window holds the latest
      finished ids, and an undecided action is Executing exactly when it was
      committed. */
  predicate CurrentOk(s: Sys)
    requires s.hist != []
  {
    WindowOk(s.finished, s.ends, Current(s)) && HeldStateOk(s.finished, s.commits, Current(s))
  }

  predicate WindowOk(finished: seq<string>, ends: map<string, Ending>, o: Object) {
    && o.consumed == Latest(finished, MAX_CONSUMED)
    && (o.last.None? <==> finished == [])
    && (o.last.Some? && finished != [] ==>
        o.last.value.id == finished[|finished| - 1] && Tells(ends, o.last.value, o.last.value.id))
  }

  /** A stored outcome repeats the ending in the books. */
  predicate Tells(ends: map<string, Ending>, outcome: ApprovalOutcome, id: string) {
    id in ends && ends[id].outcome == outcome.outcome && ends[id].verdict == outcome.decision
  }

  predicate HeldStateOk(finished: seq<string>, commits: map<string, nat>, o: Object) {
    o.pending.Some? ==>
      var id := o.pending.value.content.id;
      && (id in finished ==> Consumed(o.last, o.consumed, id))
      && (!Consumed(o.last, o.consumed, id) ==> (id in commits <==> o.pending.value.state == Executing))
  }

  // ------------------------------------------------------- reconcilers

  /** h is what reading and evaluating this object says about action c. */
  ghost predicate Handles(env: Env, uid: string, ann: Approval.Annotations, spec: Spec, past: History, h: Handled) {
    && Approval.Read(env.codec, env.hashes, ann, RefOf(env.hashes, uid, h.content), env.key) == Ok(Some(h.decision))
    && env.parseProposal(h.content.proposal).Some?
    && h.target == TargetOf(h.decision, h.content, env.parseProposal(h.content.proposal).value)
    && h.payload == PayloadOf(h.target, h.content)
    && (h.blocked <==>
        h.decision.verdict != Approval.REJECT && BlockedBy(env, spec, past, h.target, h.content, h.noise))
  }

  /** o holds h's action in this state, undecided and in the pending phase. */
  ghost predicate Holding(env: Env, o: Object, h: Handled, state: Progress) {
    && o.phase == PENDING_APPROVAL && o.pending.Some? && o.pending.value.content == h.content &&
       o.pending.value.state == state
    && !Consumed(o.last, o.consumed, h.content.id)
    && Handles(env, o.uid, o.ann, o.spec, HistoryOf(o.executed, o.proposed), h)
  }

  /** When receipts are required, this row is in the log. */
  predicate Witnessed(env: Env, receipts: seq<Entry>, e: Entry) {
    env.receiptsEnabled && env.receiptsRequired ==> e in receipts
  }

  /** Row number n of the log is e. */
  predicate RowAt(receipts: seq<Entry>, n: nat, e: Entry) {
    0 < n <= |receipts| && receipts[n - 1] == e
  }

  function HumanRow(h: Handled): Entry {
    HumanEntry(HumanOutcome(h.decision.verdict), h.content.id, h.payload)
  }

  function AllowRow(d: Draft): Entry {
    DecisionEntry(Decision.Allow, DraftPayload(d.proposal))
  }

  /** A decision a human took and the layers let through. */
  predicate Passes(h: Handled) {
    h.decision.verdict != Approval.REJECT && !h.blocked
  }

  /** d was judged on exactly object o. */
  ghost predicate JudgedOn(env: Env, o: Object, d: Draft) {
    d == DraftOf(env, d.seen, o.spec, HistoryOf(o.executed, o.proposed), d.proposal, d.id, d.noise)
  }

  /** The id of d belongs to reconciler pid and to no pending action yet. */
  predicate Minted(s: Sys, pid: nat, id: string) {
    id in s.minted && s.minted[id] == pid && id !in s.born
  }

  /** o, at version base, is the object d was judged on, with a reservation. */
  ghost predicate ReservedOn(env: Env, hist: seq<Object>, receipts: seq<Entry>, base: nat, d: Draft) {
    && base < |hist| && d.seen <= base <= d.seen + 1
    && JudgedOn(env, hist[d.seen], d) && d.judged.outcome == Decision.Allow
    && hist[base] == hist[d.seen].(other := hist[base].other)
    && Witnessed(env, receipts, AllowRow(d))
  }

  predicate Local(s: Sys, base: nat, o: Object) {
    base < |s.hist| && s.hist[base] == o
  }

  /** What holds of an outcome before it is written over an action in this state. */
  predicate Ends(replies: seq<(string, bool)>, state: Progress, outcome: ApprovalOutcome, phase: string) {
    match outcome.outcome
    case "executed" => phase == COMPLETED && outcome.decision != Approval.REJECT && (outcome.id, true) in replies
    case "failed" => phase == FAILED && outcome.decision != Approval.REJECT && (outcome.id, false) in replies
    case "rejected" => phase == REJECTED && outcome.decision == Approval.REJECT && state != Executing
    case "denied" => phase == POLICY_DENIED && outcome.decision != Approval.REJECT && state != Executing
    case "unknown" => phase == FAILED && state == Executing
    case _ => false
  }

  /** What holds of a write before it is tried. */
  ghost predicate WriteOk(env: Env, s: Sys, pid: nat, base: nat, o: Object, k: Kind, n: Next) {
    match k
    case Block(phase, _) => phase != PENDING_APPROVAL && n.Stop?
    case Touch(_) => n.Again?
    case Record(_) => n.ToReceipt? && (Holding(env, o, n.h, Idle) || Holding(env, o, n.h, Recording))
    case Hold(_) => n.Stop?
    case Release(_) => n.Stop? && o.pending.Some? && o.pending.value.state == Recording
    case Execute(_) =>
      n.ToCall? && Holding(env, o, n.h, Recording) && Passes(n.h) && Witnessed(env, s.receipts, HumanRow(n.h))
    case Finish(outcome, phase, _, _, _, _) =>
      && n.Stop? && phase != PENDING_APPROVAL && o.pending.Some? && outcome.id == o.pending.value.content.id
      && !Consumed(o.last, o.consumed, outcome.id) && Ends(Replies(s.held), o.pending.value.state, outcome, phase)
    case Reserve(_) =>
      && n.ToDirectCall? && n.d.seen == base && JudgedOn(env, o, n.d) && n.d.judged.outcome == Decision.Allow
      && Witnessed(env, s.receipts, AllowRow(n.d))
    case Final(_, pending, _, _) =>
      && n.Stop? && (pending.Some? ==> pending.value.state == Idle && Minted(s, pid, pending.value.content.id))
  }

  ghost predicate PcOk(env: Env, s: Sys, pid: nat, pc: Pc) {
    match pc
    case Fetched(base, o) => Local(s, base, o)
    case Writing(base, o, k, n) => Local(s, base, o) && WriteOk(env, s, pid, base, o, k, n)
    case HumanReceipt(base, o, h) => Local(s, base, o) && Holding(env, o, h, Recording) && env.receiptsEnabled
    case StoringExample(base, o, h, receiptSeq) =>
      Local(s, base, o) && Holding(env, o, h, Recording) && RowAt(s.receipts, receiptSeq, HumanRow(h))
    case DenyReceipt(base, o, h, _, _) =>
      Local(s, base, o) && Holding(env, o, h, Recording) && h.decision.verdict != Approval.REJECT
    case Calling(base, o, h, _) =>
      && Local(s, base, o) && Holding(env, o, h, Executing) && Passes(h) && Witnessed(env, s.receipts, HumanRow(h))
      && CommittedBy(s, pid, base, h.content.id)
    case Asking(base, o, _) => Local(s, base, o)
    case DecisionReceipt(base, o, d) =>
      Local(s, base, o) && d.seen == base && JudgedOn(env, o, d) && Minted(s, pid, d.id)
    case DirectCalling(base, o, d) => Local(s, base, o) && ReservedOn(env, s.hist, s.receipts, base, d)
    case Done => true
  }

  /** Reconciler pid made the Executing commit of id, as version base, and has
      not called yet. */
  predicate CommittedBy(s: Sys, pid: nat, base: nat, id: string) {
    && id in s.commits && s.commits[id] == base && id in s.owner && s.owner[id] == pid
    && id !in CalledIds(s.held)
  }

  // -------------------------------------------------------------- calls

  /** A held call ran what the object at its Executing commit says, and when
      receipts are required its row was already in the log. */
  ghost predicate HeldCallOk(env: Env, s: Sys, c: HeldCall) {
    && c.base < |s.hist| && c.at <= |s.receipts|
    && Holding(env, s.hist[c.base], c.h, Executing) && Passes(c.h)
    && c.h.content.id in s.commits && s.commits[c.h.content.id] == c.base
    && Witnessed(env, s.receipts[..c.at], HumanRow(c.h))
  }

  ghost predicate DirectCallOk(env: Env, s: Sys, c: DirectCall) {
    c.at <= |s.receipts| && ReservedOn(env, s.hist, s.receipts[..c.at], c.base, c.d)
  }

  /** An example in the dataset labels a decision that was read and verified, and
      its receipt is the row with its number. */
  ghost predicate ExampleOk(env: Env, hist: seq<Object>, receipts: seq<Entry>, e: Labelled) {
    e.base < |hist| && Holding(env, hist[e.base], e.h, Recording) && RowAt(receipts, e.receiptSeq, HumanRow(e.h))
  }

  ghost predicate ExamplesOk(env: Env, s: Sys) {
    forall i | 0 <= i < |s.examples| :: ExampleOk(env, s.hist, s.receipts, s.examples[i])
  }

  ghost predicate CallsOk(env: Env, s: Sys) {
    && (forall i | 0 <= i < |s.held| :: HeldCallOk(env, s, s.held[i]))
    && (forall i | 0 <= i < |s.direct| :: DirectCallOk(env, s, s.direct[i]))
    && ExamplesOk(env, s)
  }

  ghost predicate ProcsOk(env: Env, s: Sys) {
    forall pid | pid in s.procs :: PcOk(env, s, pid, s.procs[pid])
  }

  ghost predicate Inv(env: Env, uid: string, s: Sys) {
    && VersionsOk(env, uid, s.born, s.hist)
    && BooksOk(s) && CurrentOk(s) && ProcsOk(env, s) && CallsOk(env, s)
  }

  // ------------------------------------------------- what a step may grow

  /** s' has everything of s. Only the reconcilers in `who` gave birth or called. */
  predicate Grows(s: Sys, s': Sys, who: set<nat>) {
    && s.hist <= s'.hist && s.receipts <= s'.receipts
    && (forall id | id in s.commits :: id in s'.commits && s'.commits[id] == s.commits[id])
    && (forall id | id in s.owner :: id in s'.owner && s'.owner[id] == s.owner[id])
    && (forall id | id in s.minted :: id in s'.minted && s'.minted[id] == s.minted[id])
    && (forall id | id in s.born :: id in s'.born && s'.born[id] == s.born[id])
    && (forall id | id in s'.born && id !in s.born :: id in s.minted && s.minted[id] in who)
    && (forall id | id in CalledIds(s.held) :: id in CalledIds(s'.held))
    && (forall r | r in Replies(s.held) :: r in Replies(s'.held))
    && (forall id | id in CalledIds(s'.held) && id !in CalledIds(s.held) :: id in s.owner && s.owner[id] in who)
  }

  lemma {:induction false} EndsGrows(replies: seq<(string, bool)>, more: seq<(string, bool)>, state: Progress,
                                     outcome: ApprovalOutcome, phase: string)
    requires Ends(replies, state, outcome, phase) && forall r | r in replies :: r in more
    ensures Ends(more, state, outcome, phase)
  {
  }

  lemma {:induction false} EndOkKept(commits: map<string, nat>, replies: seq<(string, bool)>,
                                     commits': map<string, nat>, replies': seq<(string, bool)>, id: string, e: Ending)
    requires EndOk(commits, replies, id, e)
    requires (forall r | r in replies :: r in replies') && (id in commits <==> id in commits')
    ensures EndOk(commits', replies', id, e)
  {
  }

  /** Another reconciler's facts survive. */
  lemma {:induction false} PcOkGrows(env: Env, s: Sys, s': Sys, who: set<nat>, pid: nat, pc: Pc)
    requires PcOk(env, s, pid, pc) && Grows(s, s', who) && pid !in who
    ensures PcOk(env, s', pid, pc)
  {
    hide Holding, JudgedOn, CalledIds, Replies, Consumed, HumanRow, AllowRow, Passes, Ends;
    match pc
    case Writing(base, o, k, n) =>
      assert Local(s', base, o);
      if k.Finish? {
        EndsGrows(Replies(s.held), Replies(s'.held), o.pending.value.state, k.outcome, k.phase);
      }
    case _ =>
  }

  lemma {:induction false} HeldCallGrows(env: Env, s: Sys, t: Sys, who: set<nat>, c: HeldCall)
    requires HeldCallOk(env, s, c) && Grows(s, t, who)
    ensures HeldCallOk(env, t, c)
  {
    hide Holding, CalledIds, Replies, HumanRow, Passes;
    assert t.receipts[..c.at] == s.receipts[..c.at];
  }

  lemma {:induction false} DirectCallGrows(env: Env, s: Sys, t: Sys, who: set<nat>, c: DirectCall)
    requires DirectCallOk(env, s, c) && Grows(s, t, who)
    ensures DirectCallOk(env, t, c)
  {
    hide JudgedOn, CalledIds, Replies, AllowRow;
    assert t.receipts[..c.at] == s.receipts[..c.at];
  }

  lemma {:induction false} ExamplesGrow(env: Env, s: Sys, t: Sys, who: set<nat>)
    requires ExamplesOk(env, s) && Grows(s, t, who) && t.examples == s.examples
    ensures ExamplesOk(env, t)
  {
    hide Holding, HumanRow;
    forall i | 0 <= i < |s.examples|
      ensures ExampleOk(env, t.hist, t.receipts, t.examples[i])
    {
      assert ExampleOk(env, s.hist, s.receipts, s.examples[i]);
    }
    hide ExampleOk, Grows;
  }

  lemma {:induction false} CallsOkGrow(env: Env, s: Sys, t: Sys, who: set<nat>)
    requires CallsOk(env, s) && Grows(s, t, who) && t.held == s.held && t.direct == s.direct && t.examples == s.examples
    ensures CallsOk(env, t)
  {
    ExamplesGrow(env, s, t, who);
    hide Grows, HeldCallOk, DirectCallOk, ExamplesOk;
    forall i | 0 <= i < |s.held|
      ensures HeldCallOk(env, t, s.held[i])
    {
      HeldCallGrows(env, s, t, who, s.held[i]);
    }
    forall i | 0 <= i < |s.direct|
      ensures DirectCallOk(env, t, s.direct[i])
    {
      DirectCallGrows(env, s, t, who, s.direct[i]);
    }
  }

  /** Versions stay good when more actions are born. */
  lemma {:induction false} VersionOkGrows(env: Env, uid: string, born: map<string, Birth>, more: map<string, Birth>,
                                          o: Object)
    requires VersionOk(env, uid, born, o)
    requires forall id | id in born :: id in more && more[id] == born[id]
    ensures VersionOk(env, uid, more, o)
  {
    hide ApprovalProofs.StampedFor, ApprovalProofs.Undecided, RefOf, Consumed, FrozenOf;
  }

  // ------------------------------------------------------------- writes

  /** What one write keeps, as far as the object and the books go. */
  ghost predicate StoredOk(env: Env, uid: string, s: Sys, o: Object) {
    VersionOk(env, uid, s.born, o) && BooksOk(s) && WindowOk(s.finished, s.ends, o) &&
      HeldStateOk(s.finished, s.commits, o)
  }

  lemma {:induction false} SimpleWriteStored(env: Env, uid: string, s: Sys, pid: nat, base: nat, o: Object, k: Kind,
                                             n: Next, w: nat)
    requires StoredOk(env, uid, s, o) && WriteOk(env, s, pid, base, o, k, n)
    requires !k.Execute? && !k.Finish? && !k.Final?
    ensures StoredOk(env, uid, Booked(s, pid, o, k, w), Out(o, k))
  {
    hide ApprovalProofs.StampOk, BooksOk, WindowOk, FrozenOf, JudgedOn, Handles, Consumed;
    assert WindowOk(s.finished, s.ends, Out(o, k)) by { WindowOfSame(s.finished, s.ends, o, Out(o, k)); }
  }

  lemma {:induction false} WindowOfSame(finished: seq<string>, ends: map<string, Ending>, o: Object, o': Object)
    requires WindowOk(finished, ends, o) && o'.consumed == o.consumed && o'.last == o.last
    ensures WindowOk(finished, ends, o')
  {
  }

  lemma {:induction false} BooksAfterCommit(s: Sys, id: string, w: nat, pid: nat)
    requires BooksOk(s) && id in s.born && id !in s.finished
    ensures BooksOk(s.(commits := s.commits[id := w], owner := s.owner[id := pid]))
  {
    hide Distinct, CalledIds, Replies, EndOk;
    var replies, commits := Replies(s.held), s.commits[id := w];
    forall x | x in s.ends
      ensures EndOk(commits, replies, x, s.ends[x])
    {
      EndOkKept(s.commits, replies, commits, replies, x, s.ends[x]);
    }
  }

  lemma {:induction false} BooksAfterFinish(s: Sys, id: string, e: Ending)
    requires BooksOk(s) && id in s.born && id !in s.finished && EndOk(s.commits, Replies(s.held), id, e)
    ensures BooksOk(s.(finished := s.finished + [id], ends := s.ends[id := e]))
  {
    hide CalledIds, Replies, EndOk;
    var grown := s.finished + [id];
    assert forall i | 0 <= i < |s.finished| :: grown[i] == s.finished[i] && grown[i] in s.finished;
    assert Distinct(grown);
    hide Distinct;
  }

  /** What is written about an undecided action is what happened to it. */
  lemma {:induction false} EndsTruly(s: Sys, o: Object, outcome: ApprovalOutcome, phase: string)
    requires o.pending.Some? && outcome.id == o.pending.value.content.id && !Consumed(o.last, o.consumed, outcome.id)
    requires HeldStateOk(s.finished, s.commits, o) && Ends(Replies(s.held), o.pending.value.state, outcome, phase)
    ensures EndOk(s.commits, Replies(s.held), outcome.id, Ending(outcome.outcome, outcome.decision, phase))
  {
    hide Consumed, Replies;
  }

  lemma {:induction false} BooksAfterBirth(s: Sys, id: string, b: Birth)
    requires BooksOk(s) && id in s.minted && b.content.id == id
    ensures BooksOk(s.(born := s.born[id := b]))
  {
    hide Distinct, CalledIds, Replies, EndOk;
  }

  lemma {:induction false} WindowAfterFinish(finished: seq<string>, ends: map<string, Ending>, o: Object, k: Kind)
    requires WindowOk(finished, ends, o) && k.Finish?
    ensures WindowOk(finished + [k.outcome.id],
                     ends[k.outcome.id := Ending(k.outcome.outcome, k.outcome.decision, k.phase)], Out(o, k))
  {
    LatestOfLatest(finished, k.outcome.id, MAX_CONSUMED);
    hide Latest;
  }

  lemma {:induction false} ExecuteStored(env: Env, uid: string, s: Sys, pid: nat, base: nat, o: Object, k: Kind,
                                         n: Next, w: nat)
    requires StoredOk(env, uid, s, o) && k.Execute? && WriteOk(env, s, pid, base, o, k, n)
    ensures StoredOk(env, uid, Booked(s, pid, o, k, w), Out(o, k))
    ensures n.h.content.id !in s.commits
  {
    hide ApprovalProofs.StampOk, FrozenOf, Handles, Consumed, BooksOk, WindowOk, Passes, Witnessed, Known, Latest;
    BooksAfterCommit(s, n.h.content.id, w, pid);
    WindowOfSame(s.finished, s.ends, o, Out(o, k));
  }

  lemma {:induction false} FinishStored(env: Env, uid: string, s: Sys, pid: nat, base: nat, o: Object, k: Kind, n: Next,
                                        w: nat)
    requires StoredOk(env, uid, s, o) && WriteOk(env, s, pid, base, o, k, n) && k.Finish?
    ensures StoredOk(env, uid, Booked(s, pid, o, k, w), Out(o, k))
    ensures k.outcome.id !in s.finished
  {
    hide ApprovalProofs.StampOk, FrozenOf, BooksOk, WindowOk, Latest, Consumed;
    var id := k.outcome.id;
    EndsTruly(s, o, k.outcome, k.phase);
    hide EndOk, Ends, CalledIds, Replies;
    BooksAfterFinish(s, id, Ending(k.outcome.outcome, k.outcome.decision, k.phase));
    WindowAfterFinish(s.finished, s.ends, o, k);
  }

  lemma {:induction false} FinalStored(env: Env, uid: string, s: Sys, pid: nat, base: nat, o: Object, k: Kind, n: Next,
                                       w: nat)
    requires StoredOk(env, uid, s, o) && WriteOk(env, s, pid, base, o, k, n) && k.Final?
    ensures StoredOk(env, uid, Booked(s, pid, o, k, w), Out(o, k))
    ensures k.pending.Some? ==> k.pending.value.content.id !in s.born
  {
    hide ApprovalProofs.StampOk, BooksOk, WindowOk, Consumed, FrozenOf, Known, Latest;
    WindowOfSame(s.finished, s.ends, o, Out(o, k));
    if k.pending.Some? {
      var c := k.pending.value.content;
      NewPendingUntouched(s, c.id);
      BooksAfterBirth(s, c.id, Birth(c, FrozenOf(o.spec)));
      VersionOkGrows(env, uid, s.born, s.born[c.id := Birth(c, FrozenOf(o.spec))], o);
    }
  }

  lemma {:induction false} NewPendingUntouched(s: Sys, id: string)
    requires BooksOk(s) && id !in s.born
    ensures id !in s.finished && id !in s.commits
  {
    hide Distinct, CalledIds, Replies, EndOk;
  }

  lemma {:induction false} WriteStored(env: Env, uid: string, s: Sys, pid: nat, base: nat, o: Object, k: Kind, n: Next,
                                       w: nat)
    requires StoredOk(env, uid, s, o) && WriteOk(env, s, pid, base, o, k, n)
    ensures StoredOk(env, uid, Booked(s, pid, o, k, w), Out(o, k))
    ensures k.Execute? ==> n.ToCall? && n.h.content.id !in s.commits
    ensures k.Final? && k.pending.Some? ==> k.pending.value.content.id !in s.born
  {
    match k
    case Execute(_) => ExecuteStored(env, uid, s, pid, base, o, k, n, w);
    case Finish(_, _, _, _, _, _) => FinishStored(env, uid, s, pid, base, o, k, n, w);
    case Final(_, _, _, _) => FinalStored(env, uid, s, pid, base, o, k, n, w);
    case _ => SimpleWriteStored(env, uid, s, pid, base, o, k, n, w);
    hide *;
  }

  /** The books do not read the history, the reconcilers or the receipt log. */
  lemma {:induction false} BooksIgnore(s: Sys, t: Sys)
    requires BooksOk(s)
    requires t.born == s.born && t.minted == s.minted && t.commits == s.commits && t.owner == s.owner &&
             t.finished == s.finished && t.held == s.held && t.ends == s.ends
    ensures BooksOk(t)
  {
    hide Distinct, CalledIds, Replies, EndOk;
  }

  lemma {:induction false} BookedGrows(env: Env, s: Sys, pid: nat, base: nat, o: Object, k: Kind, n: Next, w: nat)
    requires WriteOk(env, s, pid, base, o, k, n) && BooksOk(s)
    requires k.Execute? ==> n.ToCall? && n.h.content.id !in s.commits
    requires k.Final? && k.pending.Some? ==> k.pending.value.content.id !in s.born
    ensures Grows(s, Booked(s, pid, o, k, w), {pid})
    ensures var t := Booked(s, pid, o, k, w);
            && t.held == s.held && t.direct == s.direct && t.examples == s.examples && t.procs == s.procs
            && t.hist == s.hist && t.receipts == s.receipts
  {
    hide Grows, BooksOk;
    if k.Execute? {
      hide WriteOk;
      ExecuteGrows(env, s, pid, base, o, k, n, w);
    } else {
      BirthGrows(env, s, pid, base, o, k, n, w);
    }
    hide WriteOk;
  }

  lemma {:induction false} ExecuteGrows(env: Env, s: Sys, pid: nat, base: nat, o: Object, k: Kind, n: Next, w: nat)
    requires WriteOk(env, s, pid, base, o, k, n) && BooksOk(s) && k.Execute?
    requires n.ToCall? && n.h.content.id !in s.commits
    ensures Grows(s, Booked(s, pid, o, k, w), {pid})
  {
    hide Distinct, CalledIds, Replies, EndOk, Handles, Consumed, Passes, Witnessed;
  }

  lemma {:induction false} BirthGrows(env: Env, s: Sys, pid: nat, base: nat, o: Object, k: Kind, n: Next, w: nat)
    requires WriteOk(env, s, pid, base, o, k, n) && !k.Execute?
    requires k.Final? && k.pending.Some? ==> k.pending.value.content.id !in s.born
    ensures Grows(s, Booked(s, pid, o, k, w), {pid})
  {
    hide CalledIds, Replies, Holding, Consumed, Passes, Witnessed, JudgedOn, Ends, Latest;
  }

  // ------------------------------------------------- where answers lead

  lemma {:induction false} AfterHumanReceiptOk(env: Env, s: Sys, pid: nat, base: nat, o: Object, h: Handled,
                                               receiptSeq: nat, other: string)
    requires Local(s, base, o) && Holding(env, o, h, Recording) && Witnessed(env, s.receipts, HumanRow(h))
    ensures PcOk(env, s, pid, AfterHumanReceipt(env, base, o, h, receiptSeq, other))
  {
    hide Handles, Consumed, Witnessed, HumanRow, ApproverSha, Latest;
  }

  lemma {:induction false} HoldingKept(env: Env, o: Object, h: Handled, from: Progress, state: Progress,
                                       decision: string)
    requires Holding(env, o, h, from)
    ensures Holding(env, SetState(o, state, decision), h, state)
  {
    hide Handles, Consumed;
  }

  lemma {:induction false} HoldingIgnoresOther(env: Env, o: Object, h: Handled, state: Progress, other: string)
    requires Holding(env, o, h, state)
    ensures Holding(env, o.(other := other), h, state)
  {
    hide Consumed, Approval.Read, BlockedBy;
  }

  lemma {:induction false} AfterWriteOk(env: Env, s: Sys, pid: nat, base: nat, o: Object, k: Kind, n: Next, w: nat)
    requires WriteOk(env, s, pid, base, o, k, n)
    requires Local(s, w, Out(o, k)) && Local(s, base, o) && base <= w <= base + 1
    requires n.ToCall? ==> CommittedBy(s, pid, w, n.h.content.id)
    ensures PcOk(env, s, pid, AfterWrite(env, w, Out(o, k), n))
  {
    hide Handles, Consumed, HumanRow, AllowRow, Latest, Passes, Evaluate, Judge, DraftOf, AfterHumanReceipt,
         CommittedBy;
    match n
    case ToReceipt(h) =>
      var from := if Holding(env, o, h, Idle) then Idle else Recording;
      HoldingKept(env, o, h, from, Recording, k.verdict);
      if !env.receiptsEnabled {
        AfterHumanReceiptOk(env, s, pid, w, Out(o, k), h, 0, Out(o, k).other);
      }
    case ToCall(h, _) =>
      HoldingKept(env, o, h, Recording, Executing, o.pending.value.decision);
      HoldingIgnoresOther(env, SetState(o, Executing, o.pending.value.decision), h, Executing, k.other);
    case _ =>
  }

  // ------------------------------------------------------ steps of a reconciler

  /** Everything but the reconcilers. */
  ghost predicate CoreOk(env: Env, uid: string, s: Sys) {
    VersionsOk(env, uid, s.born, s.hist) && BooksOk(s) && CurrentOk(s) && CallsOk(env, s)
  }

  lemma {:induction false} GrowsItself(s: Sys, procs: map<nat, Pc>)
    ensures Grows(s, s.(procs := procs), {})
  {
    hide CalledIds, Replies;
  }

  lemma {:induction false} CoreIgnoresProcs(env: Env, uid: string, s: Sys, procs: map<nat, Pc>)
    requires CoreOk(env, uid, s)
    ensures CoreOk(env, uid, s.(procs := procs))
  {
    var t := s.(procs := procs);
    GrowsItself(s, procs);
    CallsOkGrow(env, s, t, {});
    BooksIgnore(s, t);
    hide CallsOk, BooksOk, VersionsOk, Grows, WindowOk, HeldStateOk;
  }

  lemma {:induction false} MoveProcsOk(env: Env, s: Sys, t: Sys, pid: nat, pc: Pc)
    requires ProcsOk(env, s) && Grows(s, t, {pid}) && t.procs == s.procs && PcOk(env, t, pid, pc)
    ensures ProcsOk(env, Move(t, pid, pc))
  {
    var u := Move(t, pid, pc);
    GrowsItself(t, u.procs);
    hide Grows, PcOk;
    forall other | other in u.procs
      ensures PcOk(env, u, other, u.procs[other])
    {
      if other == pid {
        PcOkGrows(env, t, u, {}, pid, pc);
      } else {
        PcOkGrows(env, s, t, {pid}, other, s.procs[other]);
        PcOkGrows(env, t, u, {}, other, s.procs[other]);
      }
    }
  }

  /** A reconciler that did its part and is well placed keeps the invariant. */
  lemma {:induction false} MoveKeeps(env: Env, uid: string, s: Sys, t: Sys, pid: nat, pc: Pc)
    requires ProcsOk(env, s) && Grows(s, t, {pid}) && t.procs == s.procs
    requires CoreOk(env, uid, t) && PcOk(env, t, pid, pc)
    ensures Inv(env, uid, Move(t, pid, pc))
  {
    MoveProcsOk(env, s, t, pid, pc);
    CoreIgnoresProcs(env, uid, t, Move(t, pid, pc).procs);
    hide Grows, PcOk, VersionsOk, BooksOk, CurrentOk, CallsOk, ProcsOk;
  }

  /** Only the place of one reconciler changes. */
  lemma {:induction false} PlainMoveKeeps(env: Env, uid: string, s: Sys, pid: nat, pc: Pc)
    requires Inv(env, uid, s) && PcOk(env, s, pid, pc)
    ensures Inv(env, uid, Move(s, pid, pc))
  {
    assert Grows(s, s, {pid});
    hide Grows, PcOk, VersionsOk, BooksOk, CurrentOk, CallsOk, ProcsOk;
    MoveKeeps(env, uid, s, s, pid, pc);
  }

  lemma {:induction false} AppendVersion(env: Env, uid: string, s: Sys, t: Sys, out: Object)
    requires VersionsOk(env, uid, s.born, s.hist) && VersionOk(env, uid, t.born, out)
    requires t.hist == s.hist + [out] || (t.hist == s.hist && out == Current(s))
    requires forall id | id in s.born :: id in t.born && t.born[id] == s.born[id]
    ensures VersionsOk(env, uid, t.born, t.hist) && Current(t) == out
  {
    hide VersionOk;
    forall i | 0 <= i < |t.hist|
      ensures VersionOk(env, uid, t.born, t.hist[i])
    {
      if i < |s.hist| {
        VersionOkGrows(env, uid, s.born, t.born, s.hist[i]);
      }
    }
  }

  /** A new version leaves the books and the writer's facts alone. */
  lemma {:induction false} MoreHistory(env: Env, uid: string, s: Sys, hist: seq<Object>, pid: nat, pc: Pc)
    requires Inv(env, uid, s) && PcOk(env, s, pid, pc) && pc.Writing? && pc.base == |s.hist| - 1
    requires Extends(s.hist, hist, Out(pc.o, pc.kind))
    ensures var s1 := s.(hist := hist);
            && Grows(s, s1, {}) && BooksOk(s1) && PcOk(env, s1, pid, pc) && StoredOk(env, uid, s1, pc.o)
            && Local(s, pc.base, pc.o) && WriteOk(env, s1, pid, pc.base, pc.o, pc.kind, pc.next)
  {
    hide VersionOk, WindowOk, HeldStateOk, CalledIds, Replies, WriteOk, CallsOk, ProcsOk, Distinct, EndOk, Out;
    var s1 := s.(hist := hist);
    assert Grows(s, s1, {});
    PcOkGrows(env, s, s1, {}, pid, pc);
    BooksIgnore(s, s1);
  }

  /** The history after an applied write ends with what was written. */
  lemma {:induction false} StoreEndsWith(s: Sys, pc: Pc, bumped: bool)
    requires CanWrite(s, pc, bumped) && Local(s, pc.base, pc.o)
    ensures Extends(s.hist, Store(s.hist, Out(pc.o, pc.kind), bumped), Out(pc.o, pc.kind))
  {
    hide Out;
  }

  /** hist is past with out as a new version, or past itself, which ends with out. */
  predicate Extends(past: seq<Object>, hist: seq<Object>, out: Object) {
    past != [] && (hist == past + [out] || (hist == past && out == past[|past| - 1]))
  }

  lemma {:induction false} WriterIsLocal(env: Env, uid: string, s: Sys, pid: nat, pc: Pc)
    requires Inv(env, uid, s) && PcOk(env, s, pid, pc) && pc.Writing?
    ensures s.hist != [] && Local(s, pc.base, pc.o)
  {
    hide WriteOk, VersionOk, BooksOk, CurrentOk, ProcsOk, CallsOk;
  }

  /** An applied write keeps everything but the reconcilers, and the writer is
      well placed after it. */
  lemma {:induction false} WriteKeeps(env: Env, uid: string, s: Sys, pid: nat, pc: Pc, bumped: bool)
    requires Inv(env, uid, s) && PcOk(env, s, pid, pc) && CanWrite(s, pc, bumped)
    ensures var hist := Store(s.hist, Out(pc.o, pc.kind), bumped);
            var t := Booked(s.(hist := hist), pid, pc.o, pc.kind, |hist| - 1);
            && CoreOk(env, uid, t) && Grows(s, t, {pid}) && t.procs == s.procs
            && PcOk(env, t, pid, AfterWrite(env, |hist| - 1, Out(pc.o, pc.kind), pc.next))
  {
    hide Inv, PcOk, CoreOk, Grows, Booked, Out, AfterWrite, Store;
    WriterIsLocal(env, uid, s, pid, pc);
    StoreEndsWith(s, pc, bumped);
    var hist := Store(s.hist, Out(pc.o, pc.kind), bumped);
    StoredWriteKeeps(env, uid, s, pid, pc, hist, |hist| - 1);
  }

  lemma {:induction false} StoredWriteKeeps(env: Env, uid: string, s: Sys, pid: nat, pc: Pc, hist: seq<Object>, w: nat)
    requires Inv(env, uid, s) && PcOk(env, s, pid, pc) && pc.Writing? && pc.base == |s.hist| - 1
    requires Extends(s.hist, hist, Out(pc.o, pc.kind)) && w == |hist| - 1
    ensures var t := Booked(s.(hist := hist), pid, pc.o, pc.kind, w);
            && CoreOk(env, uid, t) && Grows(s, t, {pid}) && t.procs == s.procs
            && PcOk(env, t, pid, AfterWrite(env, w, Out(pc.o, pc.kind), pc.next))
  {
    hide Inv, PcOk, CoreOk, StoredOk, BooksOk, Grows, Booked, Out, AfterWrite, WriteOk, Extends;
    var s1 := s.(hist := hist);
    MoreHistory(env, uid, s, hist, pid, pc);
    WriteStored(env, uid, s1, pid, pc.base, pc.o, pc.kind, pc.next, w);
    BookedGrows(env, s1, pid, pc.base, pc.o, pc.kind, pc.next, w);
    WriteKeepsRest(env, uid, s, s1, Booked(s1, pid, pc.o, pc.kind, w), pid, pc, w);
  }

  /** A write that goes on gives birth to nothing. */
  lemma {:induction false} GoingOnGrows(s1: Sys, t: Sys, pid: nat, o: Object, k: Kind, w: nat)
    requires t == Booked(s1, pid, o, k, w) && Grows(s1, t, {pid}) && !k.Final? && t.held == s1.held
    ensures Grows(s1, t, {})
  {
    hide CalledIds, Replies;
  }

  /** An Executing write is in the books under its writer. */
  lemma {:induction false} CommitIsBooked(env: Env, s1: Sys, t: Sys, pid: nat, pc: Pc, w: nat)
    requires pc.Writing? && pc.next.ToCall? && t == Booked(s1, pid, pc.o, pc.kind, w) && BooksOk(s1)
    requires PcOk(env, s1, pid, pc) && t.held == s1.held
    requires pc.kind.Execute? ==> pc.next.h.content.id !in s1.commits
    ensures CommittedBy(t, pid, w, pc.next.h.content.id)
  {
    hide Distinct, Handles, Consumed, HumanRow, Passes, Witnessed, CalledIds, Replies, EndOk;
  }

  lemma {:induction false} PlacedAfterWrite(env: Env, s1: Sys, t: Sys, pid: nat, pc: Pc, w: nat)
    requires pc.Writing? && t == Booked(s1, pid, pc.o, pc.kind, w)
    requires PcOk(env, s1, pid, pc) && Grows(s1, t, {pid}) && BooksOk(s1) && t.held == s1.held
    requires Local(t, w, Out(pc.o, pc.kind)) && pc.base <= w <= pc.base + 1
    requires pc.kind.Execute? ==> pc.next.ToCall? && pc.next.h.content.id !in s1.commits
    ensures PcOk(env, t, pid, AfterWrite(env, w, Out(pc.o, pc.kind), pc.next))
  {
    hide Out, Holding, HumanRow, AllowRow, Passes, Witnessed, JudgedOn, Latest, Ends, Replies, AfterHumanReceipt,
         Booked, BooksOk, Grows, Consumed;
    if !pc.next.Stop? {
      GoingOnGrows(s1, t, pid, pc.o, pc.kind, w);
      PcOkGrows(env, s1, t, {}, pid, pc);
      if pc.next.ToCall? {
        CommitIsBooked(env, s1, t, pid, pc, w);
      }
      hide CommittedBy, AfterWrite;
      AfterWriteOk(env, t, pid, pc.base, pc.o, pc.kind, pc.next, w);
    }
  }

  lemma {:induction false} WriteKeepsRest(env: Env, uid: string, s: Sys, s1: Sys, t: Sys, pid: nat, pc: Pc, w: nat)
    requires Inv(env, uid, s) && pc.Writing? && s1 == s.(hist := t.hist) && t == Booked(s1, pid, pc.o, pc.kind, w)
    requires Grows(s, s1, {}) && Grows(s1, t, {pid}) && PcOk(env, s1, pid, pc) && BooksOk(s1)
    requires t.held == s.held && t.direct == s.direct && t.procs == s.procs && t.examples == s.examples
    requires StoredOk(env, uid, t, Out(pc.o, pc.kind))
    requires Extends(s.hist, t.hist, Out(pc.o, pc.kind))
    requires w == |t.hist| - 1 && Local(s, pc.base, pc.o) && pc.base == |s.hist| - 1
    requires pc.kind.Execute? ==> pc.next.ToCall? && pc.next.h.content.id !in s.commits
    requires pc.kind.Final? && pc.kind.pending.Some? ==> pc.kind.pending.value.content.id !in s.born
    ensures CoreOk(env, uid, t) && Grows(s, t, {pid})
    ensures PcOk(env, t, pid, AfterWrite(env, w, Out(pc.o, pc.kind), pc.next))
  {
    hide VersionOk, PendingOk, WindowOk, HeldStateOk, Out, CalledIds, Replies, AfterWrite, BooksOk, CallsOk, ProcsOk,
         VersionsOk, PcOk, Booked;
    assert Grows(s, t, {pid});
    assert forall id | id in s.born :: id in t.born && t.born[id] == s.born[id];
    AppendVersion(env, uid, s, t, Out(pc.o, pc.kind));
    CallsOkGrow(env, s, t, {pid});
    PlacedAfterWrite(env, s1, t, pid, pc, w);
  }

  lemma {:induction false} PlanForOk(env: Env, o: Object, p: PendingApproval, noise: Noise)
    requires o.pending == Some(p) && o.phase == PENDING_APPROVAL
    ensures var plan := PlanFor(env, o, p, noise);
            && (plan.Act? ==> Holding(env, o, plan.h, p.state) && p.state != Executing)
            && (plan.GiveUp? ==> !Consumed(o.last, o.consumed, p.content.id))
  {
    hide Approval.Read, Consumed, BlockedBy, TargetOf, RefOf, PayloadOf, HistoryOf;
  }

  lemma {:induction false} AfterGateOk(env: Env, s: Sys, pid: nat, base: nat, o: Object, noise: Noise)
    requires Local(s, base, o)
    ensures PcOk(env, s, pid, AfterGate(env, base, o, noise))
  {
    if o.phase == PENDING_APPROVAL && o.pending.Some? {
      PlanForOk(env, o, o.pending.value, noise);
    }
    hide PlanFor, Handles, Consumed;
  }

  /** A row that was stored is there; one that is not required need not be. */
  lemma {:induction false} AfterDecisionOk(env: Env, s: Sys, pid: nat, base: nat, o: Object, d: Draft, appended: bool,
                                           receiptSeq: nat)
    requires Local(s, base, o) && d.seen == base && JudgedOn(env, o, d) && Minted(s, pid, d.id)
    requires appended && d.judged.outcome == Decision.Allow ==> AllowRow(d) in s.receipts
    ensures PcOk(env, s, pid, AfterDecision(env, base, o, d, appended, receiptSeq))
  {
    Decision.ReceiptOnlyTightens(env.receiptsEnabled, env.receiptsRequired, appended,
                                 env.findingText(Invariants.Receipts), d.layers, d.judged);
    hide JudgedOn, AllowRow, Latest, Decision.AfterReceipt;
  }

  lemma {:induction false} AfterHumanAppendOk(env: Env, s: Sys, pid: nat, pc: Pc, r: Response)
    requires pc.HumanReceipt? && PcOk(env, s, pid, pc)
    requires (r.Stored? || r.NotStored?) && (r.Stored? ==> RowAt(s.receipts, r.seqNo, EntryOf(pc)))
    ensures PcOk(env, s, pid, Resume(env, pc, r))
  {
    hide Handles, Consumed, AfterHumanReceipt;
    if r.Stored? {
      AfterHumanReceiptOk(env, s, pid, pc.base, pc.o, pc.h, r.seqNo, pc.o.other);
    } else if !env.receiptsRequired {
      AfterHumanReceiptOk(env, s, pid, pc.base, pc.o, pc.h, 0, pc.o.other);
    }
  }

  lemma {:induction false} DenyFinishOk(env: Env, s: Sys, pid: nat, pc: Pc)
    requires pc.DenyReceipt? && PcOk(env, s, pid, pc)
    ensures PcOk(env, s, pid, Writing(pc.base, pc.o, DeniedFinish(env, pc.o, pc.h, pc.receiptSeq, pc.other), Stop))
  {
    hide Handles, Consumed, ApproverSha, Latest;
  }

  lemma {:induction false} AfterAppendOk(env: Env, s: Sys, pid: nat, pc: Pc, r: Response)
    requires pc.HumanReceipt? || pc.DenyReceipt? || pc.DecisionReceipt?
    requires PcOk(env, s, pid, pc) && (r.Stored? || r.NotStored?)
    requires r.Stored? ==> RowAt(s.receipts, r.seqNo, EntryOf(pc))
    ensures PcOk(env, s, pid, Resume(env, pc, r))
  {
    match pc
    case HumanReceipt(_, _, _) =>
      AfterHumanAppendOk(env, s, pid, pc, r);
      hide *;
    case DenyReceipt(_, _, _, _, _) =>
      DenyFinishOk(env, s, pid, pc);
      hide PcOk;
    case DecisionReceipt(base, o, d) =>
      AfterDecisionOk(env, s, pid, base, o, d, r.Stored?, if r.Stored? then r.seqNo else 0);
      hide PcOk, AfterDecision;
  }

  lemma {:induction false} AppendKeeps(env: Env, uid: string, s: Sys, pid: nat, pc: Pc, reply: Reply)
    requires Inv(env, uid, s) && PcOk(env, s, pid, pc) && reply.AppendReply?
    requires pc.HumanReceipt? || pc.DenyReceipt? || pc.DecisionReceipt?
    ensures Inv(env, uid, AppendStep(env, s, pid, pc, reply))
  {
    hide VersionsOk, CalledIds, Replies, PcOk, HeldCallOk, DirectCallOk, WindowOk, HeldStateOk, Resume, ProcsOk,
         CallsOk, BooksOk, EntryOf;
    var receipts := if reply.stored then s.receipts + [EntryOf(pc)] else s.receipts;
    var t := s.(receipts := receipts);
    var r := if reply.stored && reply.seen then Stored(|receipts|) else NotStored;
    assert Grows(s, t, {});
    assert Grows(s, t, {pid});
    CallsOkGrow(env, s, t, {});
    BooksIgnore(s, t);
    PcOkGrows(env, s, t, {}, pid, pc);
    AfterAppendOk(env, t, pid, pc, r);
    hide Grows;
    MoveKeeps(env, uid, s, t, pid, Resume(env, pc, r));
  }

  lemma {:induction false} AfterExampleOk(env: Env, s: Sys, pid: nat, pc: Pc, r: Response)
    requires pc.StoringExample? && PcOk(env, s, pid, pc)
    ensures PcOk(env, s, pid, Resume(env, pc, r))
  {
    hide Holding, HumanRow, AfterHumanReceipt, AfterExample;
    assert HumanRow(pc.h) in s.receipts;
    AfterHumanReceiptOk(env, s, pid, pc.base, pc.o, pc.h, pc.receiptSeq, AfterExample(pc.o.other, r.Kept?));
  }

  lemma {:induction false} OneMoreExample(env: Env, s: Sys, t: Sys, pid: nat, pc: Pc)
    requires pc.StoringExample? && PcOk(env, s, pid, pc) && CallsOk(env, s)
    requires t == s.(examples := s.examples + [Labelled(pc.h, pc.base, pc.receiptSeq)])
    ensures CallsOk(env, t) && Grows(s, t, {}) && Grows(s, t, {pid})
  {
    hide CalledIds, Replies, Holding, HumanRow, Witnessed, ReservedOn, Passes;
    assert ExampleOk(env, t.hist, t.receipts, t.examples[|s.examples|]);
    hide ExampleOk;
  }

  lemma {:induction false} ExampleKeeps(env: Env, uid: string, s: Sys, pid: nat, pc: Pc, reply: Reply)
    requires Inv(env, uid, s) && PcOk(env, s, pid, pc) && pc.StoringExample? && reply.ExampleReply?
    ensures Inv(env, uid, ExampleStep(env, s, pid, pc, reply))
  {
    hide VersionsOk, PcOk, WindowOk, HeldStateOk, Resume, ProcsOk, CallsOk, BooksOk, Grows;
    var r := if reply.stored && reply.seen then Kept else NotKept;
    AfterExampleOk(env, s, pid, pc, r);
    if reply.stored {
      var t := s.(examples := s.examples + [Labelled(pc.h, pc.base, pc.receiptSeq)]);
      OneMoreExample(env, s, t, pid, pc);
      BooksIgnore(s, t);
      PcOkGrows(env, s, t, {}, pid, Resume(env, pc, r));
      MoveKeeps(env, uid, s, t, pid, Resume(env, pc, r));
    } else {
      PlainMoveKeeps(env, uid, s, pid, Resume(env, pc, r));
    }
  }

  lemma {:induction false} CallsInOrder(held: seq<HeldCall>, c: HeldCall)
    ensures CalledIds(held + [c]) == CalledIds(held) + [c.h.content.id]
    ensures Replies(held + [c]) == Replies(held) + [(c.h.content.id, c.ok)]
  {
  }

  lemma {:induction false} OneMoreCall(s: Sys, c: HeldCall)
    requires BooksOk(s) && c.h.content.id in s.commits && c.h.content.id !in CalledIds(s.held)
    ensures BooksOk(s.(held := s.held + [c]))
    ensures CalledIds(s.held + [c]) == CalledIds(s.held) + [c.h.content.id]
    ensures Replies(s.held + [c]) == Replies(s.held) + [(c.h.content.id, c.ok)]
  {
    var ids, more := CalledIds(s.held), CalledIds(s.held + [c]);
    var replies := Replies(s.held + [c]);
    hide CalledIds, Replies, EndOk;
    CallsInOrder(s.held, c);
    assert forall i | 0 <= i < |ids| :: more[i] == ids[i] && more[i] in ids;
    assert Distinct(more);
    hide Distinct;
    forall x | x in s.ends
      ensures EndOk(s.commits, replies, x, s.ends[x])
    {
      EndOkKept(s.commits, Replies(s.held), s.commits, replies, x, s.ends[x]);
    }
  }

  lemma {:induction false} CallCounts(env: Env, s: Sys, t: Sys, pid: nat, pc: Pc, ok: bool)
    requires pc.Calling? && PcOk(env, s, pid, pc) && CallsOk(env, s) && Grows(s, t, {pid})
    requires t.direct == s.direct && t.held == s.held + [HeldCall(pc.h, pc.base, |s.receipts|, ok)]
    requires t.examples == s.examples
    ensures CallsOk(env, t)
  {
    hide Holding, HumanRow, Passes;
    var c := HeldCall(pc.h, pc.base, |s.receipts|, ok);
    assert s.receipts[..c.at] == s.receipts;
    assert HeldCallOk(env, s, c);
    hide Grows, HeldCallOk, DirectCallOk, PcOk;
    ExamplesGrow(env, s, t, {pid});
    hide ExamplesOk;
    forall i | 0 <= i < |t.held|
      ensures HeldCallOk(env, t, t.held[i])
    {
      HeldCallGrows(env, s, t, {pid}, t.held[i]);
    }
    forall i | 0 <= i < |t.direct|
      ensures DirectCallOk(env, t, t.direct[i])
    {
      DirectCallGrows(env, s, t, {pid}, t.direct[i]);
    }
  }

  lemma {:induction false} AfterCallOk(env: Env, s: Sys, t: Sys, pid: nat, pc: Pc, ok: bool)
    requires pc.Calling? && PcOk(env, s, pid, pc) && t.hist == s.hist && (pc.h.content.id, ok) in Replies(t.held)
    ensures PcOk(env, t, pid, Resume(env, pc, Returned(ok)))
  {
    hide Handles, Consumed, ApproverSha, Latest, CommittedBy, Witnessed, Replies;
  }

  lemma {:induction false} CallGrows(s: Sys, pid: nat, c: HeldCall)
    requires BooksOk(s) && c.h.content.id in s.owner && s.owner[c.h.content.id] == pid
    requires c.h.content.id in s.commits && c.h.content.id !in CalledIds(s.held)
    ensures Grows(s, s.(held := s.held + [c]), {pid})
  {
    OneMoreCall(s, c);
    hide CalledIds, Replies, BooksOk;
  }

  /** A call to the tool server is booked, and is the first for its id. */
  lemma {:induction false} CallKeeps(env: Env, uid: string, s: Sys, pid: nat, pc: Pc, ok: bool)
    requires Inv(env, uid, s) && PcOk(env, s, pid, pc) && pc.Calling?
    ensures Inv(env, uid, CallStep(env, s, pid, pc, ok))
  {
    hide VersionsOk, WindowOk, HeldStateOk, ProcsOk, BooksOk, Holding, CalledIds, Replies, CallsOk, Grows, Resume,
         Witnessed, Passes;
    var c := HeldCall(pc.h, pc.base, |s.receipts|, ok);
    var t := s.(held := s.held + [c]);
    OneMoreCall(s, c);
    CallGrows(s, pid, c);
    CallCounts(env, s, t, pid, pc, ok);
    AfterCallOk(env, s, t, pid, pc, ok);
    hide PcOk;
    MoveKeeps(env, uid, s, t, pid, Resume(env, pc, Returned(ok)));
  }

  lemma {:induction false} DirectCallKeeps(env: Env, uid: string, s: Sys, pid: nat, pc: Pc, ok: bool)
    requires Inv(env, uid, s) && PcOk(env, s, pid, pc) && pc.DirectCalling?
    ensures Inv(env, uid, CallStep(env, s, pid, pc, ok))
  {
    hide VersionsOk, WindowOk, HeldStateOk, ProcsOk, BooksOk, ReservedOn, CalledIds, Replies, CallsOk, Latest;
    var c := DirectCall(pc.d, pc.base, |s.receipts|, ok);
    var t := s.(direct := s.direct + [c]);
    assert Grows(s, t, {}) && Grows(s, t, {pid});
    BooksIgnore(s, t);
    DirectCallCounts(env, s, t, pid, pc, ok);
    assert PcOk(env, t, pid, Resume(env, pc, Returned(ok)));
    hide PcOk, Grows, Resume;
    MoveKeeps(env, uid, s, t, pid, Resume(env, pc, Returned(ok)));
  }

  lemma {:induction false} DirectCallCounts(env: Env, s: Sys, t: Sys, pid: nat, pc: Pc, ok: bool)
    requires pc.DirectCalling? && PcOk(env, s, pid, pc) && CallsOk(env, s) && Grows(s, t, {})
    requires t.held == s.held && t.direct == s.direct + [DirectCall(pc.d, pc.base, |s.receipts|, ok)]
    requires t.examples == s.examples
    ensures CallsOk(env, t)
  {
    hide JudgedOn, AllowRow, CalledIds, Replies;
    var c := DirectCall(pc.d, pc.base, |s.receipts|, ok);
    assert s.receipts[..c.at] == s.receipts;
    assert DirectCallOk(env, s, c);
    hide Grows, HeldCallOk, DirectCallOk, PcOk;
    ExamplesGrow(env, s, t, {});
    hide ExamplesOk;
    forall i | 0 <= i < |t.held|
      ensures HeldCallOk(env, t, t.held[i])
    {
      HeldCallGrows(env, s, t, {}, t.held[i]);
    }
    forall i | 0 <= i < |t.direct|
      ensures DirectCallOk(env, t, t.direct[i])
    {
      DirectCallGrows(env, s, t, {}, t.direct[i]);
    }
  }

  lemma {:induction false} AskKeeps(env: Env, uid: string, s: Sys, pid: nat, pc: Pc, answer: Answer)
    requires Inv(env, uid, s) && PcOk(env, s, pid, pc) && pc.Asking?
    requires answer.Proposed? && answer.id !in s.minted
    ensures Inv(env, uid, Move(s.(minted := s.minted[answer.id := pid]), pid, Resume(env, pc, Answered(answer))))
  {
    var t := s.(minted := s.minted[answer.id := pid]);
    AskCoreOk(env, uid, s, pid, answer.id);
    AfterAskOk(env, s, t, pid, pc, answer);
    hide *;
    MoveKeeps(env, uid, s, t, pid, Resume(env, pc, Answered(answer)));
  }

  lemma {:induction false} AskCoreOk(env: Env, uid: string, s: Sys, pid: nat, id: string)
    requires Inv(env, uid, s) && id !in s.minted
    ensures var t := s.(minted := s.minted[id := pid]);
            CoreOk(env, uid, t) && Grows(s, t, {pid}) && id !in t.born && ProcsOk(env, s)
  {
    hide VersionsOk, WindowOk, HeldStateOk, CallsOk, CalledIds, Replies, Distinct, ProcsOk;
    var t := s.(minted := s.minted[id := pid]);
    assert Grows(s, t, {}) && Grows(s, t, {pid});
    CallsOkGrow(env, s, t, {});
  }

  lemma {:induction false} AfterAskOk(env: Env, s: Sys, t: Sys, pid: nat, pc: Pc, answer: Answer)
    requires pc.Asking? && PcOk(env, s, pid, pc) && answer.Proposed? && answer.id !in s.born
    requires t == s.(minted := s.minted[answer.id := pid])
    ensures PcOk(env, t, pid, Resume(env, pc, Answered(answer)))
  {
    var o := pc.o;
    var d := DraftOf(env, pc.base, o.spec, HistoryOf(o.executed, o.proposed), answer.proposal, answer.id, pc.noise);
    assert JudgedOn(env, o, d) && d.seen == pc.base && d.id == answer.id;
    hide DraftOf, AfterDecision, JudgedOn;
    if !env.receiptsEnabled {
      WithoutReceiptOk(env, t, pid, pc.base, o, d);
    }
  }

  lemma {:induction false} WithoutReceiptOk(env: Env, s: Sys, pid: nat, base: nat, o: Object, d: Draft)
    requires Local(s, base, o) && d.seen == base && JudgedOn(env, o, d) && Minted(s, pid, d.id) && !env.receiptsEnabled
    ensures PcOk(env, s, pid, AfterDecision(env, base, o, d, false, 0))
  {
    AfterDecisionOk(env, s, pid, base, o, d, false, 0);
  }

  // ------------------------------------------- clients, restores and crashes

  lemma {:induction false} AdmittedVersionOk(env: Env, uid: string, born: map<string, Birth>, o: Object,
                                             r: Webhook.Request)
    requires Governance.Lawful(env) && VersionOk(env, uid, born, o)
    requires forall id | id in born :: born[id].content.id == id
    requires Webhook.Admitted(env.codec, env.hashes, env.key, env.validSpec, o, r).Some?
    ensures VersionOk(env, uid, born, Webhook.Admitted(env.codec, env.hashes, env.key, env.validSpec, o, r).value)
  {
    hide Approval.Admitted, ApprovalProofs.StampOk, Consumed, Approval.PendingSha;
    var p := Webhook.AdmissionRef(env.hashes, o);
    assert p.id == "" || (p.id in Known(env, uid, born) && Known(env, uid, born)[p.id] == p);
    ApprovalProofs.AdmitKeepsStampOk(env.codec, env.hashes, o.ann, r.ann, p, r.username, r.groups, env.key,
                                     Known(env, uid, born));
  }

  /** A new version made outside the controller, over the current one. */
  lemma {:induction false} OutsideWriteKeeps(env: Env, uid: string, s: Sys, out: Object)
    requires Inv(env, uid, s) && StoredOk(env, uid, s, out)
    ensures Inv(env, uid, s.(hist := s.hist + [out]))
  {
    hide VersionOk, WindowOk, HeldStateOk, CalledIds, Replies, PcOk, CallsOk, BooksOk;
    var t := s.(hist := s.hist + [out]);
    assert Grows(s, t, {});
    AppendVersion(env, uid, s, t, out);
    CallsOkGrow(env, s, t, {});
    BooksIgnore(s, t);
    forall pid | pid in t.procs
      ensures PcOk(env, t, pid, t.procs[pid])
    {
      PcOkGrows(env, s, t, {}, pid, s.procs[pid]);
    }
    hide Grows;
  }

  lemma {:induction false} ClientKeeps(env: Env, uid: string, s: Sys, r: Webhook.Request)
    requires Governance.Lawful(env) && Inv(env, uid, s)
    ensures Inv(env, uid, Apply(env, s, Client(r)))
  {
    var o := Current(s);
    var out := Webhook.Admitted(env.codec, env.hashes, env.key, env.validSpec, o, r);
    if out.Some? {
      hide ApprovalProofs.StampOk, Known, PendingOk, Approval.Admitted, Distinct, CalledIds, Replies, CallsOk, ProcsOk,
           Latest, Governance.Lawful;
      assert VersionOk(env, uid, s.born, o);
      AdmittedVersionOk(env, uid, s.born, o, r);
      ClientLeavesStatus(env, s.finished, s.ends, s.commits, o, r);
      hide VersionOk, WindowOk, HeldStateOk, BooksOk, Webhook.Admitted;
      OutsideWriteKeeps(env, uid, s, out.value);
    }
    hide *;
  }

  lemma {:induction false} ClientLeavesStatus(env: Env, finished: seq<string>, ends: map<string, Ending>,
                                              commits: map<string, nat>, o: Object, r: Webhook.Request)
    requires WindowOk(finished, ends, o) && HeldStateOk(finished, commits, o)
    requires Webhook.Admitted(env.codec, env.hashes, env.key, env.validSpec, o, r).Some?
    ensures var out := Webhook.Admitted(env.codec, env.hashes, env.key, env.validSpec, o, r).value;
            WindowOk(finished, ends, out) && HeldStateOk(finished, commits, out)
  {
    hide Approval.Admitted, Latest;
  }

  /** A consumed action that is put back is stored well, whatever its state. */
  lemma {:induction false} RestoredOk(env: Env, uid: string, s: Sys, o: Object, id: string, out: Object)
    requires StoredOk(env, uid, s, o) && id in s.born && Consumed(o.last, o.consumed, id)
    requires out == o.(pending := out.pending, phase := out.phase)
    requires out.pending.Some? && out.pending.value.content == s.born[id].content
    ensures StoredOk(env, uid, s, out)
  {
    hide ApprovalProofs.StampOk, Known, CalledIds, Replies, Distinct, EndOk, Latest, Consumed, Tells;
    WindowOfSame(s.finished, s.ends, o, out);
    assert s.born[id].content.id == id;
    hide BooksOk;
  }

  lemma {:induction false} CurrentStored(env: Env, uid: string, s: Sys)
    requires Inv(env, uid, s)
    ensures s.hist != [] && StoredOk(env, uid, s, Current(s))
  {
    hide VersionOk, BooksOk, ProcsOk, CallsOk, WindowOk, HeldStateOk;
  }

  lemma {:induction false} RestoreKeeps(env: Env, uid: string, s: Sys, id: string, state: Progress, decision: string,
                                        phase: string)
    requires Inv(env, uid, s)
    ensures Inv(env, uid, Apply(env, s, Restore(id, state, decision, phase)))
  {
    hide Inv, StoredOk, Consumed;
    CurrentStored(env, uid, s);
    var o := Current(s);
    if id in s.born && Consumed(o.last, o.consumed, id) {
      var out := o.(pending := Some(PendingApproval(s.born[id].content, state, decision)), phase := phase);
      RestoredOk(env, uid, s, o, id, out);
      OutsideWriteKeeps(env, uid, s, out);
    }
  }

  lemma {:induction false} StartKeeps(env: Env, uid: string, s: Sys, pid: nat, version: nat)
    requires Inv(env, uid, s)
    ensures Inv(env, uid, Apply(env, s, Start(pid, version)))
  {
    if pid !in s.procs && version < |s.hist| {
      assert PcOk(env, s, pid, Fetched(version, s.hist[version]));
      hide VersionsOk, BooksOk, CurrentOk, CallsOk, ProcsOk, PcOk;
      PlainMoveKeeps(env, uid, s, pid, Fetched(version, s.hist[version]));
    }
  }

  lemma {:induction false} CrashKeeps(env: Env, uid: string, s: Sys, pid: nat)
    requires Inv(env, uid, s)
    ensures Inv(env, uid, s.(procs := s.procs - {pid}))
  {
    assert PcOk(env, s, pid, Done);
    hide VersionsOk, BooksOk, CurrentOk, CallsOk, ProcsOk, PcOk;
    PlainMoveKeeps(env, uid, s, pid, Done);
  }

  // --------------------------------------------------------------- all steps

  lemma {:induction false} AppliedKeeps(env: Env, uid: string, s: Sys, pid: nat, pc: Pc, bumped: bool, seen: bool)
    requires Inv(env, uid, s) && PcOk(env, s, pid, pc) && CanWrite(s, pc, bumped)
    ensures var hist := Store(s.hist, Out(pc.o, pc.kind), bumped);
            var t := Booked(s.(hist := hist), pid, pc.o, pc.kind, |hist| - 1);
            Inv(env, uid, Move(t, pid, if seen then AfterWrite(env, |hist| - 1, Out(pc.o, pc.kind), pc.next) else Done))
  {
    hide PcOk, VersionsOk, BooksOk, CurrentOk, CallsOk, Booked, Out, AfterWrite, ProcsOk, Grows;
    WriteKeeps(env, uid, s, pid, pc, bumped);
    var hist := Store(s.hist, Out(pc.o, pc.kind), bumped);
    var t := Booked(s.(hist := hist), pid, pc.o, pc.kind, |hist| - 1);
    DoneOk(env, t, pid);
    hide Store, CanWrite, CoreOk;
    MoveKeeps(env, uid, s, t, pid, if seen then AfterWrite(env, |hist| - 1, Out(pc.o, pc.kind), pc.next) else Done);
  }

  lemma {:induction false} WriteStepKeeps(env: Env, uid: string, s: Sys, pid: nat, pc: Pc, reply: Reply)
    requires Inv(env, uid, s) && PcOk(env, s, pid, pc) && pc.Writing? && reply.WriteReply?
    ensures Inv(env, uid, WriteStep(env, s, pid, pc, reply))
  {
    hide PcOk, Inv, Booked, Out, AfterWrite, Move;
    if reply.applied && CanWrite(s, pc, reply.bumped) {
      AppliedKeeps(env, uid, s, pid, pc, reply.bumped, reply.seen);
    } else {
      DoneOk(env, s, pid);
      PlainMoveKeeps(env, uid, s, pid, Done);
    }
    hide CanWrite;
  }

  lemma {:induction false} DoneOk(env: Env, s: Sys, pid: nat)
    ensures PcOk(env, s, pid, Done)
  {
  }

  lemma {:induction false} GateKeeps(env: Env, uid: string, s: Sys, pid: nat, pc: Pc, gate: Gate)
    requires Inv(env, uid, s) && PcOk(env, s, pid, pc) && pc.Fetched?
    requires gate.Blocked? ==> gate.phase != PENDING_APPROVAL
    ensures Inv(env, uid, Move(s, pid, Resume(env, pc, Opened(gate))))
  {
    if gate.Pass? {
      AfterGateOk(env, s, pid, pc.base, pc.o, gate.noise);
    }
    hide AfterGate, VersionsOk, BooksOk, CurrentOk, CallsOk, ProcsOk;
    assert PcOk(env, s, pid, Resume(env, pc, Opened(gate)));
    hide PcOk, Resume;
    PlainMoveKeeps(env, uid, s, pid, Resume(env, pc, Opened(gate)));
  }

  lemma {:induction false} NoAnswerKeeps(env: Env, uid: string, s: Sys, pid: nat, pc: Pc)
    requires Inv(env, uid, s) && PcOk(env, s, pid, pc) && pc.Asking?
    ensures Inv(env, uid, Move(s, pid, Resume(env, pc, Answered(NoAnswer))))
  {
    hide VersionsOk, BooksOk, CurrentOk, CallsOk, ProcsOk;
    assert PcOk(env, s, pid, Writing(pc.base, pc.o, Block(FAILED, pc.o.other), Stop));
    hide PcOk;
    PlainMoveKeeps(env, uid, s, pid, Writing(pc.base, pc.o, Block(FAILED, pc.o.other), Stop));
  }

  lemma {:induction false} ProcIsOk(env: Env, uid: string, s: Sys, pid: nat)
    requires Inv(env, uid, s) && pid in s.procs
    ensures PcOk(env, s, pid, s.procs[pid])
  {
    hide PcOk, VersionsOk, BooksOk, CurrentOk, CallsOk;
  }

  lemma {:induction false} ProcStepKeeps(env: Env, uid: string, s: Sys, pid: nat, reply: Reply)
    requires Inv(env, uid, s) && pid in s.procs
    ensures Inv(env, uid, ProcStep(env, s, pid, s.procs[pid], reply))
  {
    hide Inv, PcOk, Resume, WriteStep, AppendStep, ExampleStep, CallStep, Move;
    var pc := s.procs[pid];
    ProcIsOk(env, uid, s, pid);
    match reply
    case GateReply(gate) =>
      if pc.Fetched? && (gate.Blocked? ==> gate.phase != PENDING_APPROVAL) {
        GateKeeps(env, uid, s, pid, pc, gate);
      }
    case WriteReply(_, _, _) =>
      if pc.Writing? {
        WriteStepKeeps(env, uid, s, pid, pc, reply);
      }
    case AppendReply(_, _) =>
      if pc.HumanReceipt? || pc.DenyReceipt? || pc.DecisionReceipt? {
        AppendKeeps(env, uid, s, pid, pc, reply);
      }
    case ExampleReply(_, _) =>
      if pc.StoringExample? {
        ExampleKeeps(env, uid, s, pid, pc, reply);
      }
    case CallReply(ok) =>
      if pc.Calling? {
        CallKeeps(env, uid, s, pid, pc, ok);
      } else if pc.DirectCalling? {
        DirectCallKeeps(env, uid, s, pid, pc, ok);
      }
    case AskReply(answer) =>
      if pc.Asking? {
        if answer.NoAnswer? {
          NoAnswerKeeps(env, uid, s, pid, pc);
        } else if answer.id !in s.minted {
          AskKeeps(env, uid, s, pid, pc, answer);
        }
      }
  }

  lemma {:induction false} StepKeeps(env: Env, uid: string, s: Sys, a: Label)
    requires Governance.Lawful(env) && Inv(env, uid, s)
    ensures Inv(env, uid, Apply(env, s, a))
  {
    match a
    case Start(pid, version) =>
      StartKeeps(env, uid, s, pid, version);
      hide *;
    case Crash(pid) =>
      CrashKeeps(env, uid, s, pid);
      hide Inv;
    case Client(request) =>
      ClientKeeps(env, uid, s, request);
      hide *;
    case Restore(id, state, decision, phase) =>
      RestoreKeeps(env, uid, s, id, state, decision, phase);
      hide *;
    case Step(pid, reply) =>
      if pid in s.procs {
        ProcStepKeeps(env, uid, s, pid, reply);
      }
      hide Inv, ProcStep;
  }

  lemma {:induction false} FreshOk(env: Env, o: Object)
    requires Governance.Lawful(env) && Fresh(env, o)
    ensures Inv(env, o.uid, Init(o))
  {
    var r: Webhook.Request :|
      Approval.Admitted(env.codec, env.hashes, map[], r.ann, Approval.Pending("", "", ""), r.username, r.groups,
                        env.key) == Ok(o.ann);
    var none: map<string, Birth> := map[];
    hide Approval.Admitted, CalledIds, Replies;
    ApprovalProofs.AdmitKeepsStampOk(env.codec, env.hashes, map[], r.ann, Approval.Pending("", "", ""), r.username,
                                     r.groups, env.key, Known(env, o.uid, none));
    hide ApprovalProofs.StampOk, Known;
    assert VersionOk(env, o.uid, none, o);
    assert CalledIds([]) == [];
  }

  /** Every state that any run of steps reaches satisfies the invariant. */
  lemma {:induction false} RunInvariant(env: Env, o: Object, labels: seq<Label>)
    requires Governance.Lawful(env) && Fresh(env, o)
    ensures Inv(env, o.uid, Run(env, o, labels))
  {
    if labels == [] {
      FreshOk(env, o);
    } else {
      RunInvariant(env, o, labels[..|labels| - 1]);
      StepKeeps(env, o.uid, Run(env, o, labels[..|labels| - 1]), labels[|labels| - 1]);
    }
    hide Inv, Apply, Fresh, Governance.Lawful;
  }
}
