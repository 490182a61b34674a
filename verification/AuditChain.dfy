/** pkg/audit/chain.go: the canonical bytes of a ledger row, its hash, its
    signature and the check of one row.
  */
module AuditChain {
  import opened Text
  import opened Crypto

  const TWO32: nat := 0x1_0000_0000
  const TWO64: nat := 0x1_0000_0000_0000_0000

  type uint64 = n: nat | n < TWO64
  type uint8 = n: nat | n < 256

  const ZERO_DIGEST: Digest := "\0\0\0\0\0\0\0\0\0\0\0\0\0\0\0\0\0\0\0\0\0\0\0\0\0\0\0\0\0\0\0\0"

  datatype Entry = Entry(
    seqNo: uint64, timestamp: uint64, tenant: string, workload: string, actor: string, action: uint8,
    subject: string, payload: string, payloadSha: Digest, prevHash: Digest, entryHash: Digest,
    signerKid: string, signature: Digest)

  /** The fields under the row hash. */
  datatype Hashed = Hashed(
    seqNo: uint64, timestamp: uint64, tenant: string, workload: string, actor: string, action: uint8,
    subject: string, payloadSha: Digest, prevHash: Digest)

  function HashedFields(e: Entry): Hashed {
    Hashed(e.seqNo, e.timestamp, e.tenant, e.workload, e.actor, e.action, e.subject, e.payloadSha, e.prevHash)
  }

  // ------------------------------------------------------ canonical bytes

  /** The low `width` bytes of n, least significant first. */
  function LittleEndian(n: nat, width: nat): (b: string)
    ensures |b| == width
  {
    if width == 0 then "" else [(n % 256) as char] + LittleEndian(n / 256, width - 1)
  }

  /** uint32 length prefix, then the bytes. The length is truncated to 32 bits. */
  function LengthPrefixed(b: string): string {
    LittleEndian(|b| % TWO32, 4) + b
  }

  function Encode(f: Hashed): string {
    LittleEndian(f.seqNo, 8) + (LittleEndian(f.timestamp, 8) + (LengthPrefixed(f.tenant) +
    (LengthPrefixed(f.workload) + (LengthPrefixed(f.actor) + ([f.action as char] +
    (LengthPrefixed(f.subject) + (f.payloadSha + f.prevHash)))))))
  }

  function EntryHash(h: Hashes, e: Entry): Digest {
    h.sha256(Encode(HashedFields(e)))
  }

  /** The bytes of a row that are hashed, one after the other: numbers least
      significant byte first, texts behind their length, digests as they are. */
  function Canonical(e: Entry): string {
    LittleEndian(e.seqNo, 8) + LittleEndian(e.timestamp, 8) + LengthPrefixed(e.tenant) + LengthPrefixed(e.workload) +
    LengthPrefixed(e.actor) + [e.action as char] + LengthPrefixed(e.subject) + e.payloadSha + e.prevHash
  }

  lemma {:induction false} EncodeIsCanonical(e: Entry)
    ensures Encode(HashedFields(e)) == Canonical(e)
  {
    hide LengthPrefixed, LittleEndian;
    Regroup(LittleEndian(e.seqNo, 8), LittleEndian(e.timestamp, 8), LengthPrefixed(e.tenant),
            LengthPrefixed(e.workload), LengthPrefixed(e.actor), [e.action as char], LengthPrefixed(e.subject),
            e.payloadSha, e.prevHash);
    assert "" + LittleEndian(e.seqNo, 8) == LittleEndian(e.seqNo, 8);
  }

  /** A running SHA-256: what has been written so far. */
  class Hasher {
    var written: string

    constructor ()
      ensures written == ""
    {
      written := "";
    }

    method Write(p: string)
      modifies this
      ensures written == old(written) + p
    {
      written := written + p;
    }
  }

  /** binary.LittleEndian.PutUint64 and PutUint32 into a reused buffer. */
  method PutLittleEndian(buf: array<char>, n: nat)
    modifies buf
    ensures buf[..] == LittleEndian(n, buf.Length)
  {
    var i := 0;
    var rest := n;
    while i < buf.Length
      invariant 0 <= i <= buf.Length
      invariant LittleEndian(n, buf.Length) == buf[..i] + LittleEndian(rest, buf.Length - i)
    {
      buf[i] := (rest % 256) as char;
      rest := rest / 256;
      i := i + 1;
    }
    assert buf[..i] == buf[..];
  }

  /** writeLP. */
  method WriteLengthPrefixed(hasher: Hasher, b: string)
    modifies hasher
    ensures hasher.written == old(hasher.written) + LengthPrefixed(b)
  {
    var buf := new char[4];
    PutLittleEndian(buf, |b| % TWO32);
    hasher.Write(buf[..]);
    hasher.Write(b);
  }

  /** computeEntryHash: the writes in order hash exactly the canonical bytes. */
  method ComputeEntryHash(h: Hashes, e: Entry) returns (out: Digest)
    ensures out == EntryHash(h, e) == h.sha256(Canonical(e))
  {
    EncodeIsCanonical(e);
    var hasher := new Hasher();
    var buf := new char[8];
    PutLittleEndian(buf, e.seqNo);
    hasher.Write(buf[..]);
    PutLittleEndian(buf, e.timestamp);
    hasher.Write(buf[..]);
    WriteLengthPrefixed(hasher, e.tenant);
    WriteLengthPrefixed(hasher, e.workload);
    WriteLengthPrefixed(hasher, e.actor);
    hasher.Write([e.action as char]);
    WriteLengthPrefixed(hasher, e.subject);
    hasher.Write(e.payloadSha);
    hasher.Write(e.prevHash);
    out := h.sha256(hasher.written);
    hide LengthPrefixed, LittleEndian;
    Regroup(LittleEndian(e.seqNo, 8), LittleEndian(e.timestamp, 8), LengthPrefixed(e.tenant),
            LengthPrefixed(e.workload), LengthPrefixed(e.actor), [e.action as char], LengthPrefixed(e.subject),
            e.payloadSha, e.prevHash);
  }

  /** Nine writes in a row are the nine parts joined from the right. */
  lemma {:induction false} Regroup(a: string, b: string, c: string, d: string, e: string, f: string, g: string,
                                   p: string, q: string)
    ensures "" + a + b + c + d + e + f + g + p + q == a + (b + (c + (d + (e + (f + (g + (p + q)))))))
  {
    var s5 := f + (g + (p + q));
    var left := "" + a + b + c + d + e;
    assert left + f + g + p + q == left + s5;
    assert left == a + (b + (c + (d + e)));
    assert left + s5 == a + (b + (c + (d + (e + s5))));
  }

  // ------------------------------------------------------------- decoding

  /** 256 to the width: what fits in that many bytes. */
  function Bound(width: nat): nat {
    if width == 0 then 1 else 256 * Bound(width - 1)
  }

  function FromLittleEndian(b: string): nat {
    if b == "" then 0 else b[0] as int + 256 * FromLittleEndian(b[1..])
  }

  lemma {:induction false} LittleEndianRoundTrip(n: nat, width: nat)
    requires n < Bound(width)
    ensures FromLittleEndian(LittleEndian(n, width)) == n
  {
    if width > 0 {
      LittleEndianRoundTrip(n / 256, width - 1);
      assert LittleEndian(n, width)[1..] == LittleEndian(n / 256, width - 1);
    }
  }

  lemma {:induction false} Widths()
    ensures Bound(4) == TWO32 && Bound(8) == TWO64
  {
    assert Bound(1) == 256 && Bound(2) == 65536 && Bound(3) == 16777216;
    assert Bound(4) == TWO32 && Bound(5) == 256 * TWO32 && Bound(6) == 65536 * TWO32 && Bound(7) == 16777216 * TWO32;
  }

  /** A number of `width` bytes and the rest. */
  function TakeNumber(s: string, width: nat): Option<(nat, string)> {
    if |s| < width then None else Some((FromLittleEndian(s[..width]), s[width..]))
  }

  function TakeText(s: string): Option<(string, string)> {
    match TakeNumber(s, 4)
    case None => None
    case Some((n, rest)) => if |rest| < n then None else Some((rest[..n], rest[n..]))
  }

  lemma {:induction false} TakeNumberRoundTrip(n: nat, width: nat, rest: string)
    requires n < Bound(width)
    ensures TakeNumber(LittleEndian(n, width) + rest, width) == Some((n, rest))
  {
    LittleEndianRoundTrip(n, width);
    var b := LittleEndian(n, width);
    assert (b + rest)[..width] == b && (b + rest)[width..] == rest;
  }

  lemma {:induction false} TakeTextRoundTrip(b: string, rest: string)
    requires |b| < TWO32
    ensures TakeText(LengthPrefixed(b) + rest) == Some((b, rest))
  {
    Widths();
    TakeNumberRoundTrip(|b|, 4, b + rest);
    assert LengthPrefixed(b) + rest == LittleEndian(|b|, 4) + (b + rest);
    assert (b + rest)[..|b|] == b && (b + rest)[|b|..] == rest;
  }

  /** The four text fields and the byte between them. */
  datatype Middle = Middle(tenant: string, workload: string, actor: string, action: nat, subject: string, rest: string)

  function DecodeMiddle(s: string): Option<Middle> {
    match TakeText(s)
    case None => None
    case Some((tenant, s1)) =>
      match TakeText(s1)
      case None => None
      case Some((workload, s2)) =>
        match TakeText(s2)
        case None => None
        case Some((actor, s3)) =>
          if s3 == "" then None
          else
            match TakeText(s3[1..])
            case None => None
            case Some((subject, s4)) => Some(Middle(tenant, workload, actor, s3[0] as int, subject, s4))
  }

  /** The inverse of Encode. */
  function Decode(s: string): Option<Hashed> {
    match TakeNumber(s, 8)
    case None => None
    case Some((seqNo, s1)) =>
      match TakeNumber(s1, 8)
      case None => None
      case Some((timestamp, s2)) =>
        match DecodeMiddle(s2)
        case None => None
        case Some(m) =>
          if seqNo < TWO64 && timestamp < TWO64 && m.action < 256 && |m.rest| == 64 && IsBytes(m.rest[..32]) &&
            IsBytes(m.rest[32..]) then
            Some(Hashed(seqNo, timestamp, m.tenant, m.workload, m.actor, m.action, m.subject, m.rest[..32],
                        m.rest[32..]))
          else None
  }

  /** Every text field fits its 32-bit length prefix. */
  predicate ShortFields(f: Hashed) {
    |f.tenant| < TWO32 && |f.workload| < TWO32 && |f.actor| < TWO32 && |f.subject| < TWO32
  }

  lemma {:induction false} DecodeMiddleRoundTrip(f: Hashed, rest: string)
    requires ShortFields(f)
    ensures DecodeMiddle(LengthPrefixed(f.tenant) + (LengthPrefixed(f.workload) + (LengthPrefixed(f.actor) +
                         ([f.action as char] + (LengthPrefixed(f.subject) + rest)))))
            == Some(Middle(f.tenant, f.workload, f.actor, f.action, f.subject, rest))
  {
    hide LengthPrefixed, TakeText;
    var s4 := LengthPrefixed(f.subject) + rest;
    var s3 := [f.action as char] + s4;
    var s2 := LengthPrefixed(f.actor) + s3;
    var s1 := LengthPrefixed(f.workload) + s2;
    TakeTextRoundTrip(f.tenant, s1);
    TakeTextRoundTrip(f.workload, s2);
    TakeTextRoundTrip(f.actor, s3);
    TakeTextRoundTrip(f.subject, rest);
    assert s3[1..] == s4;
  }

  /** The canonical bytes decode to the fields they were made from. */
  lemma {:induction false} DecodeEncode(f: Hashed)
    requires ShortFields(f)
    ensures Decode(Encode(f)) == Some(f)
  {
    hide LengthPrefixed, TakeNumber, DecodeMiddle;
    Widths();
    var tail := f.payloadSha + f.prevHash;
    var mid := LengthPrefixed(f.tenant) + (LengthPrefixed(f.workload) + (LengthPrefixed(f.actor) +
               ([f.action as char] + (LengthPrefixed(f.subject) + tail))));
    DecodeMiddleRoundTrip(f, tail);
    TakeNumberRoundTrip(f.timestamp, 8, mid);
    TakeNumberRoundTrip(f.seqNo, 8, LittleEndian(f.timestamp, 8) + mid);
    assert tail[..32] == f.payloadSha && tail[32..] == f.prevHash;
  }

  /** Equal bytes come from equal fields. */
  lemma {:induction false} EncodeInjective(f: Hashed, g: Hashed)
    requires ShortFields(f) && ShortFields(g)
    requires Encode(f) == Encode(g)
    ensures f == g
  {
    DecodeEncode(f);
    DecodeEncode(g);
  }

  /** The bound is needed: a field of exactly 2^32 bytes has a zero length
      prefix, and moving it to the next field gives the same bytes. */
  lemma {:induction false} LongFieldsCollide(f: Hashed)
    ensures var long := seq(TWO32, _ => '\0');
            var a := f.(tenant := long, workload := "");
            var b := f.(tenant := "", workload := long);
            a != b && Encode(a) == Encode(b)
  {
    var long: string := seq(TWO32, _ => '\0');
    LongPrefixCommutes(long);
    hide LengthPrefixed;
    var rest := LengthPrefixed(f.actor) +
      ([f.action as char] + (LengthPrefixed(f.subject) + (f.payloadSha + f.prevHash)));
    var x, y := LengthPrefixed(long), LengthPrefixed("");
    assert x + (y + rest) == (x + y) + rest && y + (x + rest) == (y + x) + rest;
  }

  lemma {:induction false} LongPrefixCommutes(long: string)
    requires |long| == TWO32 && forall i | 0 <= i < |long| :: long[i] == '\0'
    ensures LengthPrefixed(long) + LengthPrefixed("") == LengthPrefixed("") + LengthPrefixed(long)
  {
    var zero := LittleEndian(0, 4);
    assert LittleEndian(0, 1) == ['\0'] && LittleEndian(0, 2) == ['\0', '\0'] &&
           LittleEndian(0, 3) == ['\0', '\0', '\0'];
    assert forall i | 0 <= i < 4 :: zero[i] == '\0';
    assert |long| % TWO32 == 0 && 0 % TWO32 == 0;
    hide LittleEndian;
    assert LengthPrefixed(long) == zero + long && LengthPrefixed("") == zero + "";
    assert forall i | 0 <= i < |long| + 8 :: ((zero + long) + (zero + ""))[i] == '\0';
    assert forall i | 0 <= i < |long| + 8 :: ((zero + "") + (zero + long))[i] == '\0';
  }

  // ------------------------------------------------------- hash and verify

  datatype ChainHasher = ChainHasher(kid: string, key: string)

  datatype KeyError = NoKid | ShortKey

  /** NewChainHasher. */
  function NewChainHasher(kid: string, key: string): (r: Result<ChainHasher, KeyError>)
    ensures r.Ok? <==> kid != "" && |key| >= 32
    ensures r.Ok? ==> r.value.kid == kid && r.value.key == key
  {
    if kid == "" then Err(NoKid)
    else if |key| < 32 then Err(ShortKey)
    else Ok(ChainHasher(kid, key))
  }

  function Sign(h: Hashes, ch: ChainHasher, e: Entry): Entry {
    e.(signerKid := ch.kid, signature := h.hmac(ch.key, e.entryHash))
  }

  /** What Hash makes of a row. */
  function Sealed(h: Hashes, ch: ChainHasher, e: Entry): Entry {
    var d := e.(payloadSha := h.sha256(e.payload));
    Sign(h, ch, d.(entryHash := EntryHash(h, d)))
  }

  /** row is e with its digests and signature filled in. */
  predicate IsSealed(h: Hashes, ch: ChainHasher, e: Entry, row: Entry) {
    && row == e.(payloadSha := row.payloadSha, entryHash := row.entryHash, signerKid := ch.kid,
                 signature := row.signature)
    && row.payloadSha == h.sha256(e.payload) && row.entryHash == h.sha256(Canonical(row))
    && row.signature == h.hmac(ch.key, row.entryHash)
  }

  lemma {:induction false} SealedIff(h: Hashes, ch: ChainHasher, e: Entry, row: Entry)
    ensures row == Sealed(h, ch, e) <==> IsSealed(h, ch, e, row)
  {
    var s := Sealed(h, ch, e);
    EncodeIsCanonical(s);
    EncodeIsCanonical(row);
    EncodeIsCanonical(e.(payloadSha := h.sha256(e.payload)));
    hide Encode, LengthPrefixed, LittleEndian;
    assert Canonical(s) == Canonical(e.(payloadSha := h.sha256(e.payload)));
    if IsSealed(h, ch, e, row) {
      assert Canonical(row) == Canonical(s);
    }
    hide Canonical;
  }

  /** A *Entry: a row filled in place. */
  class EntryRef {
    var v: Entry

    constructor (e: Entry)
      ensures v == e
    {
      v := e;
    }
  }

  /** ChainHasher.Hash. */
  method Hash(h: Hashes, ch: ChainHasher, e: EntryRef)
    modifies e
    ensures e.v == Sealed(h, ch, old(e.v)) && IsSealed(h, ch, old(e.v), e.v)
  {
    SealedIff(h, ch, e.v, Sealed(h, ch, e.v));
    hide IsSealed;
    e.v := e.v.(payloadSha := h.sha256(e.v.payload));
    e.v := e.v.(signerKid := ch.kid);
    var hash := ComputeEntryHash(h, e.v);
    e.v := e.v.(entryHash := hash);
    e.v := e.v.(signature := h.hmac(ch.key, e.v.entryHash));
  }

  datatype RowError =
    | PrevHashMismatch | PayloadMismatch | EntryHashMismatch | UnknownKid | BadSignature | BadSequence | Cancelled
    | CheckpointMissing | CheckpointMismatch

  /** A row follows prev and carries its own hashes and signature. */
  predicate RowVerifies(h: Hashes, ch: ChainHasher, e: Entry, prev: Digest) {
    && e.prevHash == prev
    && e.payloadSha == h.sha256(e.payload)
    && e.entryHash == EntryHash(h, e)
    && e.signerKid == ch.kid
    && e.signature == h.hmac(ch.key, e.entryHash)
  }

  /** The reported error names a check that really fails. */
  predicate Explains(h: Hashes, ch: ChainHasher, e: Entry, prev: Digest, err: RowError) {
    match err
    case PrevHashMismatch => e.prevHash != prev
    case PayloadMismatch => e.payloadSha != h.sha256(e.payload)
    case EntryHashMismatch => e.entryHash != EntryHash(h, e)
    case UnknownKid => e.signerKid != ch.kid
    case BadSignature => e.signature != h.hmac(ch.key, e.entryHash)
    case _ => false
  }

  /** The first check that fails, in the order of the checks. */
  function FirstFailure(h: Hashes, ch: ChainHasher, e: Entry, prev: Digest): Option<RowError> {
    if e.prevHash != prev then Some(PrevHashMismatch)
    else if e.payloadSha != h.sha256(e.payload) then Some(PayloadMismatch)
    else if e.entryHash != h.sha256(Canonical(e)) then Some(EntryHashMismatch)
    else if e.signerKid != ch.kid then Some(UnknownKid)
    else if e.signature != h.hmac(ch.key, e.entryHash) then Some(BadSignature)
    else None
  }

  /** A row verifies exactly when no check fails. */
  lemma {:induction false} RowVerifiesIff(h: Hashes, ch: ChainHasher, e: Entry, prev: Digest)
    ensures RowVerifies(h, ch, e, prev) <==> FirstFailure(h, ch, e, prev).None?
    ensures FirstFailure(h, ch, e, prev).Some? ==> Explains(h, ch, e, prev, FirstFailure(h, ch, e, prev).value)
  {
    EncodeIsCanonical(e);
    hide Encode, Canonical;
  }

  /** ChainHasher.Verify. */
  method Verify(h: Hashes, ch: ChainHasher, e: Entry, prev: Digest) returns (err: Option<RowError>)
    ensures err.None? <==> RowVerifies(h, ch, e, prev)
    ensures err.Some? ==> Explains(h, ch, e, prev, err.value)
    ensures err == FirstFailure(h, ch, e, prev) && err != Some(Cancelled) && err != Some(BadSequence)
  {
    EncodeIsCanonical(e);
    hide Encode, Canonical;
    if e.prevHash != prev {
      return Some(PrevHashMismatch);
    }
    if e.payloadSha != h.sha256(e.payload) {
      return Some(PayloadMismatch);
    }
    var want := ComputeEntryHash(h, e);
    if e.entryHash != want {
      return Some(EntryHashMismatch);
    }
    if e.signerKid != ch.kid {
      return Some(UnknownKid);
    }
    if h.hmac(ch.key, e.entryHash) != e.signature {
      return Some(BadSignature);
    }
    return None;
  }

  /** A sealed row verifies under the key that sealed it, whatever it held before. */
  lemma {:induction false} SealedVerifies(h: Hashes, ch: ChainHasher, e: Entry)
    ensures RowVerifies(h, ch, Sealed(h, ch, e), e.prevHash)
  {
    var s := Sealed(h, ch, e);
    assert HashedFields(s) == HashedFields(e.(payloadSha := h.sha256(e.payload)));
  }

  /** Changing any hashed field or the payload of a verified row, and nothing
      else, is noticed or exhibits a collision. */
  lemma {:induction false} EditedRowFails(h: Hashes, ch: ChainHasher, e: Entry, e': Entry, prev: Digest)
    requires RowVerifies(h, ch, e, prev) && RowVerifies(h, ch, e', prev)
    requires e.entryHash == e'.entryHash
    requires ShortFields(HashedFields(e)) && ShortFields(HashedFields(e'))
    ensures (HashedFields(e) == HashedFields(e') && e.payload == e'.payload)
            || Collision(h, Encode(HashedFields(e)), Encode(HashedFields(e')))
            || Collision(h, e.payload, e'.payload)
  {
    hide Encode;
    if Encode(HashedFields(e)) == Encode(HashedFields(e')) {
      EncodeInjective(HashedFields(e), HashedFields(e'));
    }
  }
}
