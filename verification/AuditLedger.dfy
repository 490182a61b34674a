/** pkg/audit/verifier.go and recorder.go: walking a ledger, checkpoints, and
    recorders that share one backend.
  */
module AuditLedger {
  import opened Text
  import opened Crypto
  import opened AuditChain

  type Keys = map<string, ChainHasher>

  // ------------------------------------------------------------ the walk

  /** The hash row i has to follow. */
  function PrevHashOf(entries: seq<Entry>, i: nat): Digest
    requires i <= |entries|
  {
    if i == 0 then ZERO_DIGEST else entries[i - 1].entryHash
  }

  /** Row i carries the next number, a known signer and a valid link. */
  predicate RowOk(h: Hashes, keys: Keys, entries: seq<Entry>, i: nat)
    requires i < |entries|
  {
    && entries[i].seqNo == (i + 1) % TWO64
    && entries[i].signerKid in keys
    && RowVerifies(h, keys[entries[i].signerKid], entries[i], PrevHashOf(entries, i))
  }

  /** Every row up to n checks. */
  predicate AcceptedTo(h: Hashes, keys: Keys, entries: seq<Entry>, n: nat)
    requires n <= |entries|
  {
    forall i | 0 <= i < n :: RowOk(h, keys, entries, i)
  }

  predicate Accepted(h: Hashes, keys: Keys, entries: seq<Entry>) {
    AcceptedTo(h, keys, entries, |entries|)
  }

  datatype Report = Report(
    total: nat, ok: nat, firstError: Option<RowError>, firstErrorSeq: uint64,
    headSeq: uint64, headHash: Digest, headKid: string, checkpointsOk: nat, checkpointsBad: nat)

  /** No key id twice. */
  predicate DistinctKids(hashers: seq<ChainHasher>) {
    forall i, j | 0 <= i < j < |hashers| :: hashers[i].kid != hashers[j].kid
  }

  predicate HasKid(hashers: seq<ChainHasher>, kid: string) {
    exists i | 0 <= i < |hashers| :: hashers[i].kid == kid
  }

  /** The keys are exactly the hashers, by key id. */
  predicate Indexes(keys: Keys, hashers: seq<ChainHasher>) {
    && (forall i | 0 <= i < |hashers| :: hashers[i].kid in keys && keys[hashers[i].kid] == hashers[i])
    && (forall k | k in keys :: HasKid(hashers, k))
  }

  /** NewVerifier: at least one key, no key id twice. */
  method NewVerifier(hashers: seq<ChainHasher>) returns (r: Option<Keys>)
    ensures r.Some? <==> hashers != [] && DistinctKids(hashers)
    ensures r.Some? ==> Indexes(r.value, hashers)
  {
    if |hashers| == 0 {
      return None;
    }
    var m: Keys := map[];
    for n := 0 to |hashers|
      invariant Indexes(m, hashers[..n]) && DistinctKids(hashers[..n])
    {
      var c := hashers[n];
      assert hashers[..n + 1] == hashers[..n] + [c];
      if c.kid in m {
        RepeatedKid(m, hashers[..n], c);
        return None;
      }
      IndexOneMore(m, hashers[..n], c);
      m := m[c.kid := c];
    }
    assert hashers[..|hashers|] == hashers;
    return Some(m);
  }

  lemma {:induction false} RepeatedKid(m: Keys, hashers: seq<ChainHasher>, c: ChainHasher)
    requires Indexes(m, hashers) && c.kid in m
    ensures !DistinctKids(hashers + [c])
  {
    var i :| 0 <= i < |hashers| && hashers[i].kid == c.kid;
    var grown := hashers + [c];
    assert grown[i].kid == grown[|hashers|].kid;
  }

  lemma {:induction false} IndexOneMore(m: Keys, hashers: seq<ChainHasher>, c: ChainHasher)
    requires Indexes(m, hashers) && DistinctKids(hashers) && c.kid !in m
    ensures Indexes(m[c.kid := c], hashers + [c]) && DistinctKids(hashers + [c])
  {
    var grown := hashers + [c];
    assert grown[|hashers|] == c;
    forall k | k in m[c.kid := c]
      ensures HasKid(grown, k)
    {
      if k in m {
        var i :| 0 <= i < |hashers| && hashers[i].kid == k;
        assert grown[i].kid == k;
      }
    }
  }

  /** Verifier.Walk. `cancelled(i)` says the context ended before row i. */
  method Walk(h: Hashes, keys: Keys, entries: seq<Entry>, cancelled: nat -> bool) returns (r: Report)
    ensures r.total == |entries| && r.ok <= r.total && r.checkpointsOk == 0 && r.checkpointsBad == 0
    ensures AcceptedTo(h, keys, entries, r.ok)
    ensures r.firstError.None? <==> r.ok == r.total
    ensures r.ok < r.total ==> cancelled(r.ok) || !RowOk(h, keys, entries, r.ok)
    ensures r.firstError == Some(Cancelled) <==> r.ok < r.total && cancelled(r.ok)
    ensures r.firstError == Some(BadSequence) <==>
            r.ok < r.total && !cancelled(r.ok) && entries[r.ok].seqNo != (r.ok + 1) % TWO64
    ensures r.firstError.Some? && r.firstError.value !in {Cancelled, BadSequence} &&
            entries[r.ok].signerKid !in keys ==>
              r.firstError == Some(UnknownKid)
    ensures r.firstError.Some? && r.firstError.value !in {Cancelled, BadSequence} && entries[r.ok].signerKid in keys ==>
              r.firstError == FirstFailure(h, keys[entries[r.ok].signerKid], entries[r.ok], PrevHashOf(entries, r.ok))
    ensures r.ok == 0 ==> r.headSeq == 0 && r.headHash == ZERO_DIGEST && r.headKid == ""
    ensures r.ok > 0 ==> r.headSeq == entries[r.ok - 1].seqNo && r.headHash == entries[r.ok - 1].entryHash
                         && r.headKid == entries[r.ok - 1].signerKid
    ensures r.firstErrorSeq == if r.ok == r.total || cancelled(r.ok) then 0 else entries[r.ok].seqNo
  {
    hide RowVerifies, FirstFailure, Explains;
    r := Report(|entries|, 0, None, 0, 0, ZERO_DIGEST, "", 0, 0);
    if |entries| == 0 {
      return;
    }
    var prev := ZERO_DIGEST;
    var i := 0;
    while i < |entries|
      invariant 0 <= i <= |entries|
      invariant prev == PrevHashOf(entries, i)
      invariant r == Report(|entries|, i, None, 0, if i == 0 then 0 else entries[i - 1].seqNo, prev,
                            if i == 0 then "" else entries[i - 1].signerKid, 0, 0)
      invariant AcceptedTo(h, keys, entries, i)
    {
      if cancelled(i) {
        return r.(firstError := Some(Cancelled));
      }
      var e := entries[i];
      if e.seqNo != (i + 1) % TWO64 {
        return r.(firstError := Some(BadSequence), firstErrorSeq := e.seqNo);
      }
      if e.signerKid !in keys {
        return r.(firstError := Some(UnknownKid), firstErrorSeq := e.seqNo);
      }
      var err := Verify(h, keys[e.signerKid], e, prev);
      if err.Some? {
        return r.(firstError := err, firstErrorSeq := e.seqNo);
      }
      prev := e.entryHash;
      r := r.(ok := r.ok + 1, headSeq := e.seqNo, headHash := e.entryHash, headKid := e.signerKid);
      i := i + 1;
    }
  }

  // --------------------------------------------------------- checkpoints

  datatype Checkpoint = Checkpoint(seqNo: uint64, entryHash: Digest)

  /** The last row numbered s: later rows overwrite earlier ones in the index. */
  function Indexed(entries: seq<Entry>, s: uint64): Option<Entry> {
    if entries == [] then None
    else if entries[|entries| - 1].seqNo == s then Some(entries[|entries| - 1])
    else Indexed(entries[..|entries| - 1], s)
  }

  predicate CheckpointOk(entries: seq<Entry>, cp: Checkpoint) {
    Indexed(entries, cp.seqNo).Some? && Indexed(entries, cp.seqNo).value.entryHash == cp.entryHash
  }

  function CountOk(entries: seq<Entry>, cps: seq<Checkpoint>): nat {
    if cps == [] then 0
    else CountOk(entries, cps[..|cps| - 1]) + if CheckpointOk(entries, cps[|cps| - 1]) then 1 else 0
  }

  /** A *Report updated in place. */
  class ReportRef {
    var walk: Report
    var firstError: Option<RowError>
    var firstErrorSeq: uint64
    var checkpointsOk: nat
    var checkpointsBad: nat

    constructor (r: Report)
      ensures walk == r && firstError == r.firstError && firstErrorSeq == r.firstErrorSeq
      ensures checkpointsOk == r.checkpointsOk && checkpointsBad == r.checkpointsBad
    {
      walk, firstError, firstErrorSeq := r, r.firstError, r.firstErrorSeq;
      checkpointsOk, checkpointsBad := r.checkpointsOk, r.checkpointsBad;
    }
  }

  /** The index holds the last row of each number. */
  ghost predicate IsIndex(bySeq: map<uint64, Entry>, entries: seq<Entry>) {
    forall s: uint64 :: Indexed(entries, s) == if s in bySeq then Some(bySeq[s]) else None
  }

  lemma {:induction false} CountWithin(entries: seq<Entry>, cps: seq<Checkpoint>)
    ensures CountOk(entries, cps) <= |cps|
    ensures CountOk(entries, cps) == |cps| <==> forall i | 0 <= i < |cps| :: CheckpointOk(entries, cps[i])
  {
    if cps != [] {
      CountWithin(entries, cps[..|cps| - 1]);
    }
  }

  /** The loop of VerifyCheckpoints that fills its index. */
  method IndexBySeq(entries: seq<Entry>) returns (bySeq: map<uint64, Entry>)
    ensures IsIndex(bySeq, entries)
  {
    bySeq := map[];
    for i := 0 to |entries|
      invariant IsIndex(bySeq, entries[..i])
    {
      assert entries[..i + 1][..i] == entries[..i];
      bySeq := bySeq[entries[i].seqNo := entries[i]];
    }
    assert entries[..|entries|] == entries;
  }

  /** VerifyCheckpoints. */
  method VerifyCheckpoints(entries: seq<Entry>, cps: seq<Checkpoint>, r: ReportRef)
    modifies r`firstError, r`firstErrorSeq, r`checkpointsOk, r`checkpointsBad
    ensures r.checkpointsOk == old(r.checkpointsOk) + CountOk(entries, cps)
    ensures r.checkpointsBad == old(r.checkpointsBad) + |cps| - CountOk(entries, cps)
    ensures old(r.firstError).Some? ==> r.firstError == old(r.firstError) && r.firstErrorSeq == old(r.firstErrorSeq)
    ensures old(r.firstError).None? ==> (r.firstError.None? <==> CountOk(entries, cps) == |cps|)
  {
    var bySeq := IndexBySeq(entries);
    hide Indexed;
    CountWithin(entries, cps);
    for j := 0 to |cps|
      invariant CountOk(entries, cps[..j]) <= j
      invariant r.checkpointsOk == old(r.checkpointsOk) + CountOk(entries, cps[..j])
      invariant r.checkpointsBad == old(r.checkpointsBad) + j - CountOk(entries, cps[..j])
      invariant old(r.firstError).Some? ==> r.firstError == old(r.firstError) && r.firstErrorSeq == old(r.firstErrorSeq)
      invariant old(r.firstError).None? ==> (r.firstError.None? <==> CountOk(entries, cps[..j]) == j)
    {
      assert cps[..j + 1][..j] == cps[..j];
      var cp := cps[j];
      if cp.seqNo !in bySeq {
        r.checkpointsBad := r.checkpointsBad + 1;
        if r.firstError.None? {
          r.firstError, r.firstErrorSeq := Some(CheckpointMissing), cp.seqNo;
        }
      } else if bySeq[cp.seqNo].entryHash != cp.entryHash {
        r.checkpointsBad := r.checkpointsBad + 1;
        if r.firstError.None? {
          r.firstError, r.firstErrorSeq := Some(CheckpointMismatch), cp.seqNo;
        }
      } else {
        r.checkpointsOk := r.checkpointsOk + 1;
      }
    }
    assert cps[..|cps|] == cps;
  }

  // ----------------------------------------------------- tamper evidence

  predicate ShortRows(entries: seq<Entry>) {
    forall i | 0 <= i < |entries| :: ShortFields(HashedFields(entries[i]))
  }

  /** Two rows agree on every hashed field and on the payload. */
  predicate SameRow(a: Entry, b: Entry) {
    HashedFields(a) == HashedFields(b) && a.payload == b.payload
  }

  /** Walk two chains down from row n, which carry one hash, and return the
      first two different inputs found under one digest. */
  function FindCollision(a: seq<Entry>, b: seq<Entry>, n: nat): Option<(string, string)>
    requires n <= |a| && n <= |b|
  {
    if n == 0 then None
    else
      var ea, eb := Encode(HashedFields(a[n - 1])), Encode(HashedFields(b[n - 1]));
      if ea != eb then Some((ea, eb))
      else if a[n - 1].payload != b[n - 1].payload then Some((a[n - 1].payload, b[n - 1].payload))
      else FindCollision(a, b, n - 1)
  }

  /** Two accepted ledgers with one hash at row n agree on the first n rows, or
      FindCollision exhibits a SHA-256 collision. The signing keys may differ. */
  lemma {:induction false} TamperEvident(h: Hashes, keys: Keys, keys': Keys, a: seq<Entry>, b: seq<Entry>, n: nat)
    requires 0 < n <= |a| && n <= |b|
    requires AcceptedTo(h, keys, a, n) && AcceptedTo(h, keys', b, n)
    requires ShortRows(a) && ShortRows(b)
    requires a[n - 1].entryHash == b[n - 1].entryHash
    ensures match FindCollision(a, b, n)
            case None => forall i | 0 <= i < n :: SameRow(a[i], b[i])
            case Some((x, y)) => Collision(h, x, y)
  {
    hide Encode;
    var x, y := a[n - 1], b[n - 1];
    assert RowOk(h, keys, a, n - 1) && RowOk(h, keys', b, n - 1);
    if Encode(HashedFields(x)) == Encode(HashedFields(y)) {
      EncodeInjective(HashedFields(x), HashedFields(y));
      if x.payload == y.payload && n > 1 {
        assert PrevHashOf(a, n - 1) == PrevHashOf(b, n - 1);
        TamperEvident(h, keys, keys', a, b, n - 1);
      }
    }
  }

  /** In an accepted ledger of fewer than 2^64 rows the row numbered s is row s. */
  lemma {:induction false} IndexedInLedger(h: Hashes, keys: Keys, entries: seq<Entry>, s: uint64)
    requires Accepted(h, keys, entries) && |entries| < TWO64
    ensures Indexed(entries, s) == if 1 <= s <= |entries| then Some(entries[s - 1]) else None
  {
    hide RowVerifies;
    if entries != [] {
      var init := entries[..|entries| - 1];
      forall i | 0 <= i < |init|
        ensures RowOk(h, keys, init, i)
      {
        assert RowOk(h, keys, entries, i);
      }
      assert RowOk(h, keys, entries, |entries| - 1);
      IndexedInLedger(h, keys, init, s);
    }
  }

  /** A checkpoint taken as the head at row n of an original ledger counts as OK
      for another accepted ledger exactly when that ledger still holds the first
      n rows unchanged, unless FindCollision exhibits a collision. So a
      truncation below n, or an edit at or before n, is a bad checkpoint. */
  lemma {:induction false} CheckpointPinsHistory(h: Hashes, keys: Keys, keys': Keys, a: seq<Entry>, b: seq<Entry>,
                                                 n: uint64)
    requires 0 < n <= |a|
    requires AcceptedTo(h, keys, a, n) && Accepted(h, keys', b) && |b| < TWO64
    requires ShortRows(a) && ShortRows(b)
    ensures var cp := Checkpoint(n, a[n - 1].entryHash);
            if CheckpointOk(b, cp) then
              n <= |b| && match FindCollision(a, b, n)
                          case None => forall i | 0 <= i < n :: SameRow(a[i], b[i])
                          case Some((x, y)) => Collision(h, x, y)
            else
              |b| < n || exists i | 0 <= i < n :: !SameRow(a[i], b[i])
  {
    hide Encode;
    IndexedInLedger(h, keys', b, n);
    if n <= |b| {
      if a[n - 1].entryHash == b[n - 1].entryHash {
        TamperEvident(h, keys, keys', a, b, n);
      } else {
        assert RowOk(h, keys, a, n - 1) && RowOk(h, keys', b, n - 1);
        assert !SameRow(a[n - 1], b[n - 1]);
      }
    }
  }

  // ------------------------------------------- recorders on one backend

  /** MemoryBackend. */
  class MemoryBackend {
    var entries: seq<Entry>

    constructor ()
      ensures entries == []
    {
      entries := [];
    }

    method Append(e: Entry) returns (ok: bool)
      modifies this
      ensures ok <==> e.seqNo == (|old(entries)| + 1) % TWO64
      ensures entries == if ok then old(entries) + [e] else old(entries)
    {
      if e.seqNo != (|entries| + 1) % TWO64 {
        return false;
      }
      entries := entries + [e];
      return true;
    }

    method Head() returns (seqNo: uint64, hash: Digest)
      ensures (seqNo, hash) == HeadOf(entries)
      ensures entries == [] ==> seqNo == 0 && hash == ZERO_DIGEST
      ensures entries != [] ==> seqNo == entries[|entries| - 1].seqNo && hash == entries[|entries| - 1].entryHash
    {
      if |entries| == 0 {
        return 0, ZERO_DIGEST;
      }
      var last := entries[|entries| - 1];
      return last.seqNo, last.entryHash;
    }
  }

  function HeadOf(entries: seq<Entry>): (uint64, Digest) {
    if entries == [] then (0, ZERO_DIGEST)
    else (entries[|entries| - 1].seqNo, entries[|entries| - 1].entryHash)
  }

  /** What a recorder remembers. */
  datatype Memory = Memory(hasher: ChainHasher, lastSeq: uint64, lastHash: Digest)

  /** The row a recorder builds next from the caller's fields at time now. */
  function NextEntry(h: Hashes, m: Memory, e: Entry, now: uint64): Entry {
    Sealed(h, m.hasher, e.(seqNo := (m.lastSeq + 1) % TWO64, timestamp := now, prevHash := m.lastHash))
  }

  /** row is the caller's fields under the next number, stamped with the time, linked
      to what the recorder remembers, and sealed with its key. */
  predicate Extends(h: Hashes, m: Memory, e: Entry, now: uint64, row: Entry) {
    && row.seqNo == (m.lastSeq + 1) % TWO64 && row.timestamp == now && row.prevHash == m.lastHash
    && row.tenant == e.tenant && row.workload == e.workload && row.actor == e.actor && row.action == e.action
    && row.subject == e.subject && row.payload == e.payload && row.payloadSha == h.sha256(e.payload)
    && row.entryHash == h.sha256(Canonical(row)) && row.signerKid == m.hasher.kid
    && row.signature == h.hmac(m.hasher.key, row.entryHash)
  }

  lemma {:induction false} NextEntryIff(h: Hashes, m: Memory, e: Entry, now: uint64, row: Entry)
    ensures row == NextEntry(h, m, e, now) <==> Extends(h, m, e, now, row)
  {
    var next := e.(seqNo := (m.lastSeq + 1) % TWO64, timestamp := now, prevHash := m.lastHash);
    SealedIff(h, m.hasher, next, row);
    hide Sealed, Canonical;
    assert IsSealed(h, m.hasher, next, row) <==> Extends(h, m, e, now, row);
  }

  /** Recorder. */
  class Recorder {
    const hasher: ChainHasher
    const backend: MemoryBackend
    var lastSeq: uint64
    var lastHash: Digest

    function Remembered(): Memory
      reads this
    {
      Memory(hasher, lastSeq, lastHash)
    }

    constructor (hasher: ChainHasher, backend: MemoryBackend)
      ensures this.hasher == hasher && this.backend == backend
      ensures (lastSeq, lastHash) == HeadOf(backend.entries)
    {
      this.hasher := hasher;
      this.backend := backend;
      var seqNo, hash := backend.Head();
      lastSeq := seqNo;
      lastHash := hash;
    }

    method Append(h: Hashes, e: Entry, now: uint64) returns (r: Option<Entry>)
      modifies this, backend
      ensures r.Some? <==> NextEntry(h, old(Remembered()), e, now).seqNo == (|old(backend.entries)| + 1) % TWO64
      ensures r.Some? ==> r.value == NextEntry(h, old(Remembered()), e, now)
      ensures r.Some? <==> (old(lastSeq) + 1) % TWO64 == (|old(backend.entries)| + 1) % TWO64
      ensures r.Some? ==> Extends(h, old(Remembered()), e, now, r.value)
      ensures backend.entries == if r.Some? then old(backend.entries) + [r.value] else old(backend.entries)
      ensures Remembered() == if r.Some? then Memory(hasher, r.value.seqNo, r.value.entryHash) else old(Remembered())
    {
      hide Sealed, IsSealed, Extends;
      NextEntryIff(h, Remembered(), e, now, NextEntry(h, Remembered(), e, now));
      NextEntryVerifies(h, Remembered(), e, now);
      var ref := new EntryRef(e);
      ref.v := ref.v.(seqNo := (lastSeq + 1) % TWO64);
      ref.v := ref.v.(timestamp := now);
      ref.v := ref.v.(prevHash := lastHash);
      Hash(h, hasher, ref);
      var ok := backend.Append(ref.v);
      if !ok {
        return None;
      }
      lastSeq := ref.v.seqNo;
      lastHash := ref.v.entryHash;
      return Some(ref.v);
    }
  }

  /** One backend and any number of recorders, some of them stale. */
  datatype Ledger = Ledger(entries: seq<Entry>, recorders: map<nat, Memory>)

  datatype Event =
    | Open(id: nat, hasher: ChainHasher)
    | Record(id: nat, fields: Entry, now: uint64)
    | Drop(id: nat)

  function After(h: Hashes, l: Ledger, ev: Event): Ledger {
    match ev
    case Open(id, hasher) =>
      var (s, d) := HeadOf(l.entries);
      l.(recorders := l.recorders[id := Memory(hasher, s, d)])
    case Drop(id) => l.(recorders := l.recorders - {id})
    case Record(id, fields, now) =>
      if id !in l.recorders then l
      else
        var e := NextEntry(h, l.recorders[id], fields, now);
        if e.seqNo != (|l.entries| + 1) % TWO64 then l
        else Ledger(l.entries + [e], l.recorders[id := Memory(l.recorders[id].hasher, e.seqNo, e.entryHash)])
  }

  function Run(h: Hashes, evs: seq<Event>): Ledger {
    if evs == [] then Ledger([], map[])
    else After(h, Run(h, evs[..|evs| - 1]), evs[|evs| - 1])
  }

  /** A recorder remembers a row that is in the ledger, or that it is empty. */
  predicate Knows(entries: seq<Entry>, m: Memory) {
    m.lastSeq <= |entries| && m.lastHash == PrevHashOf(entries, m.lastSeq)
  }

  predicate LedgerInv(h: Hashes, keys: Keys, l: Ledger) {
    && Accepted(h, keys, l.entries)
    && forall id | id in l.recorders :: Knows(l.entries, l.recorders[id]) && Covered(keys, l.recorders[id].hasher)
  }

  predicate Covered(keys: Keys, ch: ChainHasher) {
    ch.kid in keys && keys[ch.kid] == ch
  }

  /** The verifier was built with every key the recorders sign with. */
  predicate KeysCover(keys: Keys, evs: seq<Event>) {
    forall i | 0 <= i < |evs| && evs[i].Open? :: Covered(keys, evs[i].hasher)
  }

  /** The next row is sealed over what its recorder remembers. */
  lemma {:induction false} NextEntryVerifies(h: Hashes, m: Memory, fields: Entry, now: uint64)
    ensures var e := NextEntry(h, m, fields, now);
            && e.seqNo == (m.lastSeq + 1) % TWO64
            && e.signerKid == m.hasher.kid
            && RowVerifies(h, m.hasher, e, m.lastHash)
  {
    SealedVerifies(h, m.hasher, fields.(seqNo := (m.lastSeq + 1) % TWO64, timestamp := now, prevHash := m.lastHash));
  }

  lemma {:induction false} AppendKeepsAccepted(h: Hashes, keys: Keys, entries: seq<Entry>, e: Entry)
    requires Accepted(h, keys, entries) && |entries| + 1 < TWO64
    requires e.seqNo == |entries| + 1 && e.signerKid in keys
    requires RowVerifies(h, keys[e.signerKid], e, PrevHashOf(entries, |entries|))
    ensures Accepted(h, keys, entries + [e])
  {
    hide RowVerifies;
    var grown := entries + [e];
    forall i | 0 <= i < |grown|
      ensures RowOk(h, keys, grown, i)
    {
      assert PrevHashOf(grown, i) == PrevHashOf(entries, i);
      if i < |entries| {
        assert RowOk(h, keys, entries, i);
      }
    }
  }

  lemma {:induction false} RecordKeepsLedger(h: Hashes, keys: Keys, l: Ledger, id: nat, fields: Entry, now: uint64)
    requires LedgerInv(h, keys, l) && |l.entries| + 1 < TWO64
    ensures LedgerInv(h, keys, After(h, l, Record(id, fields, now)))
  {
    hide RowVerifies, RowOk, NextEntry;
    if id in l.recorders {
      var m := l.recorders[id];
      var e := NextEntry(h, m, fields, now);
      NextEntryVerifies(h, m, fields, now);
      if e.seqNo == (|l.entries| + 1) % TWO64 {
        AppendKeepsAccepted(h, keys, l.entries, e);
        var grown := l.entries + [e];
        assert grown[|l.entries|] == e;
        forall k | k in l.recorders
          ensures Knows(grown, l.recorders[k])
        {
          assert Knows(l.entries, l.recorders[k]);
        }
      }
    }
  }

  lemma {:induction false} EventKeepsLedger(h: Hashes, keys: Keys, l: Ledger, ev: Event)
    requires LedgerInv(h, keys, l) && |l.entries| + 1 < TWO64
    requires ev.Open? ==> Covered(keys, ev.hasher)
    ensures LedgerInv(h, keys, After(h, l, ev))
  {
    match ev
    case Open(id, hasher) =>
      OpenKeepsLedger(h, keys, l, id, hasher);
    case Drop(id) =>
      hide RowOk;
    case Record(id, fields, now) =>
      RecordKeepsLedger(h, keys, l, id, fields, now);
      hide *;
  }

  lemma {:induction false} OpenKeepsLedger(h: Hashes, keys: Keys, l: Ledger, id: nat, hasher: ChainHasher)
    requires LedgerInv(h, keys, l) && |l.entries| + 1 < TWO64 && Covered(keys, hasher)
    ensures LedgerInv(h, keys, After(h, l, Open(id, hasher)))
  {
    hide RowVerifies;
    if l.entries != [] {
      assert RowOk(h, keys, l.entries, |l.entries| - 1);
    }
    var (s, d) := HeadOf(l.entries);
    assert Knows(l.entries, Memory(hasher, s, d));
  }

  /** However many recorders share the backend, however stale they are, and
      however often they restart under other keys, the ledger is accepted. */
  lemma {:induction false} SharedLedgerStaysValid(h: Hashes, keys: Keys, evs: seq<Event>)
    requires KeysCover(keys, evs) && |evs| < TWO64
    ensures LedgerInv(h, keys, Run(h, evs)) && |Run(h, evs).entries| <= |evs|
    ensures Accepted(h, keys, Run(h, evs).entries)
  {
    if evs != [] {
      SharedLedgerStaysValid(h, keys, evs[..|evs| - 1]);
      EventKeepsLedger(h, keys, Run(h, evs[..|evs| - 1]), evs[|evs| - 1]);
      hide LedgerInv, Accepted, NextEntry;
    }
  }

  // ----------------------------------------------------- and does get longer

  /** Recorder id is up to date. */
  predicate UpToDate(l: Ledger, id: nat) {
    id in l.recorders && (l.recorders[id].lastSeq + 1) % TWO64 == (|l.entries| + 1) % TWO64
  }

  /** A recorder that is up to date appends its next row, and stays up to date; any
      other one changes nothing. */
  lemma {:induction false} RecordAppendsIff(h: Hashes, l: Ledger, id: nat, fields: Entry, now: uint64, row: Entry)
    ensures var t := After(h, l, Record(id, fields, now));
            if UpToDate(l, id) then
              (t.entries == l.entries + [row] <==> Extends(h, l.recorders[id], fields, now, row)) &&
              |t.entries| == |l.entries| + 1 && t.recorders.Keys == l.recorders.Keys &&
              t.recorders[id].lastSeq == (|l.entries| + 1) % TWO64 &&
              t.recorders[id].lastHash == t.entries[|l.entries|].entryHash
            else t == l
  {
    hide NextEntry, Extends;
    if id in l.recorders {
      var e := NextEntry(h, l.recorders[id], fields, now);
      NextEntryVerifies(h, l.recorders[id], fields, now);
      NextEntryIff(h, l.recorders[id], fields, now, row);
      var t := After(h, l, Record(id, fields, now));
      if UpToDate(l, id) {
        assert t.entries == l.entries + [e];
        assert t.entries[|l.entries|] == e;
        assert t.entries == l.entries + [row] ==> t.entries[|l.entries|] == row;
      }
    }
  }

  /** A recorder that is opened on a valid ledger is up to date. */
  lemma {:induction false} OpenedIsUpToDate(h: Hashes, keys: Keys, l: Ledger, id: nat, hasher: ChainHasher)
    requires Accepted(h, keys, l.entries) && |l.entries| < TWO64
    ensures UpToDate(After(h, l, Open(id, hasher)), id) && After(h, l, Open(id, hasher)).entries == l.entries
  {
    hide RowVerifies;
    if l.entries != [] {
      assert RowOk(h, keys, l.entries, |l.entries| - 1);
    }
  }

  lemma {:induction false} RunsOneMore(h: Hashes, evs: seq<Event>, ev: Event)
    ensures Run(h, evs + [ev]) == After(h, Run(h, evs), ev)
  {
    hide After;
    assert (evs + [ev])[..|evs|] == evs;
  }

  /** A valid ledger of any length is reached, with a recorder that is opened anew
      before every row. */
  lemma {:induction false} SomeLedgerGrows(h: Hashes, hasher: ChainHasher, fields: Entry, n: nat)
    returns (evs: seq<Event>)
    requires 2 * n < TWO64
    ensures |evs| == 2 * n && |Run(h, evs).entries| == n && KeysCover(map[hasher.kid := hasher], evs)
    ensures Accepted(h, map[hasher.kid := hasher], Run(h, evs).entries)
  {
    hide After, Accepted, UpToDate;
    var keys := map[hasher.kid := hasher];
    if n == 0 {
      evs := [];
    } else {
      var init := SomeLedgerGrows(h, hasher, fields, n - 1);
      var more := init + [Open(0, hasher)];
      evs := more + [Record(0, fields, 0)];
      RunsOneMore(h, init, Open(0, hasher));
      RunsOneMore(h, more, Record(0, fields, 0));
      OpenedIsUpToDate(h, keys, Run(h, init), 0, hasher);
      RecordAppendsIff(h, Run(h, more), 0, fields, 0, fields);
    }
    SharedLedgerStaysValid(h, keys, evs);
  }
}
