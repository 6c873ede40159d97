// The digest preimages of diem/hash.go, and the proof that they are unambiguous.
module Hashing {
  import opened Wire

  const DOMAIN_BLOCK: Octet := 0x01
  const DOMAIN_VOTE_INFO: Octet := 0x02
  const DOMAIN_LEDGER_COMMIT: Octet := 0x03
  const DOMAIN_TIMEOUT: Octet := 0x04
  const DOMAIN_QC_SIGS: Octet := 0x05
  const DOMAIN_STATE: Octet := 0x06

  // ------------------------------------------------------------------------- encoders

  /** The low `k` octets of `v`, most significant first; a larger value is truncated,
      as a uint conversion does. */
  function BigEndian(v: nat, k: nat): (s: seq<Item>)
    ensures |s| == k
  {
    if k == 0 then [] else BigEndian(v / 256, k - 1) + [Oct(v % 256)]
  }

  const U64_LEN: nat := 8
  const U32_LEN: nat := 4

  function U64(v: nat): seq<Item> { BigEndian(v, U64_LEN) }

  function U32(v: nat): seq<Item> { BigEndian(v, U32_LEN) }

  function Octets(b: seq<Octet>): (s: seq<Item>)
    ensures |s| == |b|
  {
    seq(|b|, i requires 0 <= i < |b| => Oct(b[i]))
  }

  /** A hash field is written without a length. */
  function HashField(h: Hash): seq<Item> {
    if h.Raw? then Octets(h.bytes) else [Digest(h)]
  }

  function LengthPrefixed(b: Blob): seq<Item> { U64(|b|) + Octets(b) }

  function Txns(p: seq<Blob>): seq<Item> {
    if p == [] then [] else LengthPrefixed(p[0]) + Txns(p[1..])
  }

  function SigList(sigs: seq<Signature>): seq<Item> {
    if sigs == [] then []
    else (U32(sigs[0].signer) + LengthPrefixed(sigs[0].sig)) + SigList(sigs[1..])
  }

  function PayloadField(p: Payload): seq<Item> { U64(|p|) + Txns(p) }

  function SigsField(sigs: seq<Signature>): seq<Item> { U64(|sigs|) + SigList(sigs) }

  function BlockPreimage(author: Id, round: Round, payload: Payload, parent: Hash,
                         sigs: seq<Signature>): seq<Item> {
    [Oct(DOMAIN_BLOCK)] +
    (U32(author) + (U64(round) + (PayloadField(payload) + (HashField(parent) + SigsField(sigs)))))
  }

  function VoteInfoPreimage(v: VoteInfo): seq<Item> {
    [Oct(DOMAIN_VOTE_INFO)] +
    (HashField(v.id) + (U64(v.round) + (HashField(v.parentId) +
    (U64(v.parentRound) + HashField(v.execStateId)))))
  }

  function LedgerCommitPreimage(l: LedgerCommitInfo): seq<Item> {
    [Oct(DOMAIN_LEDGER_COMMIT)] + (HashField(l.commitStateId) + HashField(l.voteInfoHash))
  }

  function TimeoutPreimage(round: Round, highQcRound: Round): seq<Item> {
    [Oct(DOMAIN_TIMEOUT)] + (U64(round) + U64(highQcRound))
  }

  function QcSigsPreimage(sigs: seq<Signature>): seq<Item> {
    [Oct(DOMAIN_QC_SIGS)] + SigsField(sigs)
  }

  function StatePreimage(prev: Hash, payload: Payload): seq<Item> {
    [Oct(DOMAIN_STATE)] + (HashField(prev) + PayloadField(payload))
  }

  // -------------------------------------------------------------------------- digests

  function BlockId(author: Id, round: Round, payload: Payload, qc: Option<QuorumCert>): Hash {
    Sha(BlockPreimage(author, round, payload, QCBlockId(qc), QCSignatures(qc)))
  }

  function VoteInfoHash(v: VoteInfo): Hash { Sha(VoteInfoPreimage(v)) }

  function LedgerCommitDigest(l: LedgerCommitInfo): Hash { Sha(LedgerCommitPreimage(l)) }

  function TimeoutDigest(round: Round, highQcRound: Round): Hash {
    Sha(TimeoutPreimage(round, highQcRound))
  }

  function QcSigsDigest(sigs: seq<Signature>): Hash { Sha(QcSigsPreimage(sigs)) }

  function ExecuteHash(prev: Hash, payload: Payload): Hash { Sha(StatePreimage(prev, payload)) }

  function NewBlock(author: Id, round: Round, payload: Payload, qc: Option<QuorumCert>): Block {
    Block(author, round, payload, qc, BlockId(author, round, payload, qc))
  }

  /** safety.go:186: the id is the one the fields hash to. */
  predicate ValidBlockId(b: Block) {
    b.id == BlockId(b.author, b.round, b.payload, b.qc)
  }

  // ------------------------------------------------------------------------- genesis

  function ZeroQC(id: Hash): QuorumCert {
    QuorumCert(VoteInfo(id, 0, ZERO_HASH, 0, ZERO_HASH), LedgerCommitInfo(ZERO_HASH, ZERO_HASH),
               [], 0, None)
  }

  const GENESIS_BLOCK: Block := NewBlock(0, 0, [], Some(ZeroQC(ZERO_HASH)))
  const GENESIS_QC: QuorumCert := ZeroQC(GENESIS_BLOCK.id)
  const GENESIS_STATE: Hash := ExecuteHash(ZERO_HASH, [])

  // ------------------------------------------------------------ decoding from the left

  /** Equal concatenations with equally long heads split alike. */
  lemma CancelFixed(a: seq<Item>, t: seq<Item>, b: seq<Item>, u: seq<Item>)
    requires |a| == |b| && a + t == b + u
    ensures a == b && t == u
  {
    assert a == (a + t)[..|a|] && b == (b + u)[..|b|];
    assert t == (a + t)[|a|..] && u == (b + u)[|b|..];
  }

  function Pow256(k: nat): nat {
    if k == 0 then 1 else 256 * Pow256(k - 1)
  }

  lemma {:induction false} BigEndianInjective(v: nat, w: nat, k: nat)
    requires v < Pow256(k) && w < Pow256(k) && BigEndian(v, k) == BigEndian(w, k)
    ensures v == w
  {
    if k > 0 {
      CancelFixed(BigEndian(v / 256, k - 1), [Oct(v % 256)], BigEndian(w / 256, k - 1), [Oct(w % 256)]);
      assert [Oct(v % 256)][0] == [Oct(w % 256)][0];
      BigEndianInjective(v / 256, w / 256, k - 1);
    }
  }

  lemma Widths()
    ensures Pow256(4) == 0x1_0000_0000
    ensures Pow256(8) == MAX_U64 + 1
  {
    assert Pow256(2) == 65536;
    assert Pow256(4) == 256 * (256 * Pow256(2));
    assert Pow256(6) == 256 * (256 * Pow256(4));
    assert Pow256(8) == 256 * (256 * Pow256(6));
  }

  lemma CancelU64(v: nat, t: seq<Item>, w: nat, u: seq<Item>)
    requires v <= MAX_U64 && w <= MAX_U64 && U64(v) + t == U64(w) + u
    ensures v == w && t == u
  {
    Widths();
    CancelFixed(U64(v), t, U64(w), u);
    BigEndianInjective(v, w, U64_LEN);
  }

  lemma CancelU32(v: Id, t: seq<Item>, w: Id, u: seq<Item>)
    requires U32(v) + t == U32(w) + u
    ensures v == w && t == u
  {
    Widths();
    CancelFixed(U32(v), t, U32(w), u);
    BigEndianInjective(v, w, U32_LEN);
  }

  lemma OctetsInjective(b: seq<Octet>, c: seq<Octet>)
    requires Octets(b) == Octets(c)
    ensures b == c
  {
    assert |b| == |Octets(b)| == |c|;
    forall i | 0 <= i < |b| ensures b[i] == c[i] {
      assert Octets(b)[i] == Oct(b[i]) && Octets(c)[i] == Oct(c[i]);
    }
  }

  /** A hash field needs no length prefix when both sides are exactly hashLen bytes. */
  lemma CancelHash(g: Hash, t: seq<Item>, h: Hash, u: seq<Item>)
    requires ValidHash(g) && ValidHash(h) && HashField(g) + t == HashField(h) + u
    ensures g == h && t == u
  {
    assert (HashField(g) + t)[0] == HashField(g)[0] && (HashField(h) + u)[0] == HashField(h)[0];
    CancelFixed(HashField(g), t, HashField(h), u);
    if g.Raw? {
      OctetsInjective(g.bytes, h.bytes);
    }
  }

  lemma CancelBlob(b: Blob, t: seq<Item>, c: Blob, u: seq<Item>)
    requires LengthPrefixed(b) + t == LengthPrefixed(c) + u
    ensures b == c && t == u
  {
    hide U64;
    assert LengthPrefixed(b) + t == U64(|b|) + (Octets(b) + t);
    assert LengthPrefixed(c) + u == U64(|c|) + (Octets(c) + u);
    CancelU64(|b|, Octets(b) + t, |c|, Octets(c) + u);
    CancelFixed(Octets(b), t, Octets(c), u);
    OctetsInjective(b, c);
  }

  lemma {:induction false} CancelTxns(p: seq<Blob>, t: seq<Item>, q: seq<Blob>, u: seq<Item>)
    requires |p| == |q| && Txns(p) + t == Txns(q) + u
    ensures p == q && t == u
  {
    hide LengthPrefixed;
    if p == [] {
      assert Txns(p) + t == t && Txns(q) + u == u;
    } else {
      assert Txns(p) + t == LengthPrefixed(p[0]) + (Txns(p[1..]) + t);
      assert Txns(q) + u == LengthPrefixed(q[0]) + (Txns(q[1..]) + u);
      CancelBlob(p[0], Txns(p[1..]) + t, q[0], Txns(q[1..]) + u);
      CancelTxns(p[1..], t, q[1..], u);
    }
  }

  lemma CancelPayload(p: Payload, t: seq<Item>, q: Payload, u: seq<Item>)
    requires PayloadField(p) + t == PayloadField(q) + u
    ensures p == q && t == u
  {
    hide U64;
    hide Txns;
    assert PayloadField(p) + t == U64(|p|) + (Txns(p) + t);
    assert PayloadField(q) + u == U64(|q|) + (Txns(q) + u);
    CancelU64(|p|, Txns(p) + t, |q|, Txns(q) + u);
    CancelTxns(p, t, q, u);
  }

  lemma {:induction false} SigListInjective(s: seq<Signature>, r: seq<Signature>)
    requires |s| == |r| && SigList(s) == SigList(r)
    ensures s == r
  {
    hide U32;
    hide LengthPrefixed;
    if s != [] {
      var a, b := s[0], r[0];
      var t, u := SigList(s[1..]), SigList(r[1..]);
      assert SigList(s) == U32(a.signer) + (LengthPrefixed(a.sig) + t);
      assert SigList(r) == U32(b.signer) + (LengthPrefixed(b.sig) + u);
      CancelU32(a.signer, LengthPrefixed(a.sig) + t, b.signer, LengthPrefixed(b.sig) + u);
      CancelBlob(a.sig, t, b.sig, u);
      SigListInjective(s[1..], r[1..]);
    }
  }

  lemma SigsFieldInjective(s: seq<Signature>, r: seq<Signature>)
    requires |s| <= MAX_U64 && |r| <= MAX_U64 && SigsField(s) == SigsField(r)
    ensures s == r
  {
    hide U64;
    hide SigList;
    CancelU64(|s|, SigList(s), |r|, SigList(r));
    SigListInjective(s, r);
  }

  lemma Untag(tag: Octet, t: seq<Item>, u: seq<Item>)
    requires [Oct(tag)] + t == [Oct(tag)] + u
    ensures t == u
  {
    CancelFixed([Oct(tag)], t, [Oct(tag)], u);
  }

  // ----------------------------------------------------------------------- injectivity

  /** A block id determines the author, round and payload whatever the certificates
      look like. It determines the parent and the certificate's signatures when both
      parent ids are exactly hashLen bytes. */
  lemma BlockIdInjective(a: Block, b: Block)
    requires BlockId(a.author, a.round, a.payload, a.qc) == BlockId(b.author, b.round, b.payload, b.qc)
    ensures a.author == b.author && a.round == b.round && a.payload == b.payload
    ensures ValidHash(ParentId(a)) && ValidHash(ParentId(b)) ==> ParentId(a) == ParentId(b)
    ensures ValidHash(ParentId(a)) && ValidHash(ParentId(b))
            && |QCSignatures(a.qc)| <= MAX_U64 && |QCSignatures(b.qc)| <= MAX_U64
            ==> QCSignatures(a.qc) == QCSignatures(b.qc)
  {
    hide U64;
    hide U32;
    hide HashField;
    hide PayloadField;
    hide SigsField;
    var ta := HashField(ParentId(a)) + SigsField(QCSignatures(a.qc));
    var tb := HashField(ParentId(b)) + SigsField(QCSignatures(b.qc));
    var pa, pb := PayloadField(a.payload) + ta, PayloadField(b.payload) + tb;
    Untag(DOMAIN_BLOCK, U32(a.author) + (U64(a.round) + pa), U32(b.author) + (U64(b.round) + pb));
    CancelU32(a.author, U64(a.round) + pa, b.author, U64(b.round) + pb);
    CancelU64(a.round, pa, b.round, pb);
    CancelPayload(a.payload, ta, b.payload, tb);
    if ValidHash(ParentId(a)) && ValidHash(ParentId(b)) {
      CancelHash(ParentId(a), SigsField(QCSignatures(a.qc)), ParentId(b), SigsField(QCSignatures(b.qc)));
      if |QCSignatures(a.qc)| <= MAX_U64 && |QCSignatures(b.qc)| <= MAX_U64 {
        SigsFieldInjective(QCSignatures(a.qc), QCSignatures(b.qc));
      }
    }
  }

  predicate ValidVoteInfo(v: VoteInfo) {
    ValidHash(v.id) && ValidHash(v.parentId) && ValidHash(v.execStateId)
  }

  /** A parent that is itself a digest is fixed whatever the other copy's parent looks like. */
  lemma DigestParentIsFixed(a: Block, b: Block)
    requires BlockId(a.author, a.round, a.payload, a.qc) == BlockId(b.author, b.round, b.payload, b.qc)
    requires ParentId(a).Sha?
    ensures ParentId(b) == ParentId(a)
  {
    hide U64;
    hide U32;
    hide PayloadField;
    hide SigsField;
    var ta := HashField(ParentId(a)) + SigsField(QCSignatures(a.qc));
    var tb := HashField(ParentId(b)) + SigsField(QCSignatures(b.qc));
    var pa, pb := PayloadField(a.payload) + ta, PayloadField(b.payload) + tb;
    Untag(DOMAIN_BLOCK, U32(a.author) + (U64(a.round) + pa), U32(b.author) + (U64(b.round) + pb));
    CancelU32(a.author, U64(a.round) + pa, b.author, U64(b.round) + pb);
    CancelU64(a.round, pa, b.round, pb);
    CancelPayload(a.payload, ta, b.payload, tb);
    assert ta[0] == Digest(ParentId(a)) && tb[0] == ta[0];
    SigsStartWithOctet(QCSignatures(b.qc));
    OctetsStartWithOctet(ParentId(b));
  }

  lemma SigsStartWithOctet(sigs: seq<Signature>)
    ensures |SigsField(sigs)| > 0 && SigsField(sigs)[0].Oct?
  {
    BigEndianOctets(|sigs|, U64_LEN);
  }

  lemma OctetsStartWithOctet(h: Hash)
    ensures h.Raw? && |HashField(h)| > 0 ==> HashField(h)[0].Oct?
  { }

  lemma {:induction false} BigEndianOctets(v: nat, k: nat)
    ensures |BigEndian(v, k)| == k && forall i :: 0 <= i < k ==> BigEndian(v, k)[i].Oct?
  {
    if k > 0 { BigEndianOctets(v / 256, k - 1); }
  }

  lemma VoteInfoHashInjective(v: VoteInfo, w: VoteInfo)
    requires ValidVoteInfo(v) && ValidVoteInfo(w) && VoteInfoHash(v) == VoteInfoHash(w)
    ensures v == w
  {
    hide U64;
    hide HashField;
    var v3, w3 := U64(v.parentRound) + HashField(v.execStateId), U64(w.parentRound) + HashField(w.execStateId);
    var v2, w2 := HashField(v.parentId) + v3, HashField(w.parentId) + w3;
    var v1, w1 := U64(v.round) + v2, U64(w.round) + w2;
    Untag(DOMAIN_VOTE_INFO, HashField(v.id) + v1, HashField(w.id) + w1);
    CancelHash(v.id, v1, w.id, w1);
    CancelU64(v.round, v2, w.round, w2);
    CancelHash(v.parentId, v3, w.parentId, w3);
    CancelU64(v.parentRound, HashField(v.execStateId), w.parentRound, HashField(w.execStateId));
    HashFieldInjective(v.execStateId, w.execStateId);
  }

  lemma HashFieldInjective(g: Hash, h: Hash)
    requires ValidHash(g) && ValidHash(h) && HashField(g) == HashField(h)
    ensures g == h
  {
    assert HashField(g) + [] == HashField(g) && HashField(h) + [] == HashField(h);
    CancelHash(g, [], h, []);
  }

  lemma LedgerCommitDigestInjective(l: LedgerCommitInfo, m: LedgerCommitInfo)
    requires ValidHash(l.commitStateId) && ValidHash(l.voteInfoHash)
    requires ValidHash(m.commitStateId) && ValidHash(m.voteInfoHash)
    requires LedgerCommitDigest(l) == LedgerCommitDigest(m)
    ensures l == m
  {
    hide HashField;
    var t, u := HashField(l.voteInfoHash), HashField(m.voteInfoHash);
    Untag(DOMAIN_LEDGER_COMMIT, HashField(l.commitStateId) + t, HashField(m.commitStateId) + u);
    CancelHash(l.commitStateId, t, m.commitStateId, u);
    HashFieldInjective(l.voteInfoHash, m.voteInfoHash);
  }

  lemma TimeoutDigestInjective(r: Round, q: Round, r': Round, q': Round)
    requires TimeoutDigest(r, q) == TimeoutDigest(r', q')
    ensures r == r' && q == q'
  {
    hide U64;
    Untag(DOMAIN_TIMEOUT, U64(r) + U64(q), U64(r') + U64(q'));
    CancelU64(r, U64(q), r', U64(q'));
    assert U64(q) + [] == U64(q) && U64(q') + [] == U64(q');
    CancelU64(q, [], q', []);
  }

  lemma QcSigsDigestInjective(s: seq<Signature>, r: seq<Signature>)
    requires |s| <= MAX_U64 && |r| <= MAX_U64 && QcSigsDigest(s) == QcSigsDigest(r)
    ensures s == r
  {
    Untag(DOMAIN_QC_SIGS, SigsField(s), SigsField(r));
    SigsFieldInjective(s, r);
  }

  lemma ExecuteHashInjective(g: Hash, p: Payload, h: Hash, q: Payload)
    requires ValidHash(g) && ValidHash(h) && ExecuteHash(g, p) == ExecuteHash(h, q)
    ensures g == h && p == q
  {
    hide HashField;
    hide PayloadField;
    Untag(DOMAIN_STATE, HashField(g) + PayloadField(p), HashField(h) + PayloadField(q));
    CancelHash(g, PayloadField(p), h, PayloadField(q));
    assert PayloadField(p) + [] == PayloadField(p) && PayloadField(q) + [] == PayloadField(q);
    CancelPayload(p, [], q, []);
  }

  /** The domain a digest was written for: its first octet. */
  ghost predicate InDomain(h: Hash, tag: Octet) {
    h.Sha? && |h.preimage| > 0 && h.preimage[0] == Oct(tag)
  }

  /** The six kinds of digest never coincide, for any arguments. */
  lemma DomainSeparation(b: Block, v: VoteInfo, l: LedgerCommitInfo, r: Round, q: Round,
                         s: seq<Signature>, prev: Hash, p: Payload)
    ensures InDomain(BlockId(b.author, b.round, b.payload, b.qc), DOMAIN_BLOCK)
    ensures InDomain(VoteInfoHash(v), DOMAIN_VOTE_INFO)
    ensures InDomain(LedgerCommitDigest(l), DOMAIN_LEDGER_COMMIT)
    ensures InDomain(TimeoutDigest(r, q), DOMAIN_TIMEOUT)
    ensures InDomain(QcSigsDigest(s), DOMAIN_QC_SIGS)
    ensures InDomain(ExecuteHash(prev, p), DOMAIN_STATE)
    ensures var ds := [BlockId(b.author, b.round, b.payload, b.qc), VoteInfoHash(v), LedgerCommitDigest(l),
                       TimeoutDigest(r, q), QcSigsDigest(s), ExecuteHash(prev, p)];
            forall i, j :: 0 <= i < j < |ds| ==> ds[i] != ds[j]
  {
    var ds := [BlockId(b.author, b.round, b.payload, b.qc), VoteInfoHash(v), LedgerCommitDigest(l),
               TimeoutDigest(r, q), QcSigsDigest(s), ExecuteHash(prev, p)];
    assert forall i :: 0 <= i < |ds| ==> InDomain(ds[i], i + 1);
  }

  /** An id field is not length-prefixed, so a longer one can swallow the signature count
      and signer behind it; the empty signature's length is then read as a count of zero. */
  lemma SwallowedSignature(z: seq<Octet>, count: seq<Octet>, signer: seq<Octet>)
    requires Octets(count) == U64(1) && Octets(signer) == U32(0)
    ensures HashField(Raw(z)) + SigsField([Signature(0, [])])
            == HashField(Raw(z + (count + signer))) + SigsField([])
  {
    hide U64;
    hide U32;
    OctetsConcat(count, signer);
    OctetsConcat(z, count + signer);
    var one, zero := [Signature(0, [])], U64(0);
    assert one[1..] == [];
    assert SigsField([]) == zero + [];
    assert SigsField(one) == U64(1) + ((U32(0) + (zero + [])) + []);
    hide Octets;
    hide SigsField;
    Regroup(Octets(z), U64(1), U32(0), zero);
  }

  lemma Regroup(z: seq<Item>, count: seq<Item>, signer: seq<Item>, zero: seq<Item>)
    ensures z + (count + ((signer + (zero + [])) + [])) == (z + (count + signer)) + (zero + [])
  {
    assert zero + [] == zero && (signer + zero) + [] == signer + zero;
    assert count + (signer + zero) == (count + signer) + zero;
    assert z + ((count + signer) + zero) == (z + (count + signer)) + zero;
  }

  /** Without the length check the parent is not determined by the id. */
  lemma ParentAmbiguousWithoutLengthCheck()
    ensures exists a: Block, b: Block ::
              && ValidBlockId(a) && ValidBlockId(b) && a.id == b.id
              && ValidHash(ParentId(a)) && ParentId(a) != ParentId(b)
  {
    var count, signer: seq<Octet> := [0, 0, 0, 0, 0, 0, 0, 1], [0, 0, 0, 0];
    EncodedCountAndSigner(count, signer);
    var z := ZERO_HASH.bytes;
    SwallowedSignature(z, count, signer);
    var a := NewBlock(0, 1, [], Some(ZeroQC(Raw(z)).(signatures := [Signature(0, [])])));
    var b := NewBlock(0, 1, [], Some(ZeroQC(Raw(z + (count + signer)))));
    assert |z + (count + signer)| == 44;
    assert a.id == b.id && ValidBlockId(a) && ValidBlockId(b);
  }

  lemma EncodedCountAndSigner(count: seq<Octet>, signer: seq<Octet>)
    requires count == [0, 0, 0, 0, 0, 0, 0, 1] && signer == [0, 0, 0, 0]
    ensures Octets(count) == U64(1) && Octets(signer) == U32(0)
  {
    BigEndianZero(U64_LEN - 1);
    BigEndianZero(U32_LEN);
  }

  lemma OctetsConcat(b: seq<Octet>, c: seq<Octet>)
    ensures Octets(b + c) == Octets(b) + Octets(c)
  { }

  lemma {:induction false} BigEndianZero(k: nat)
    ensures BigEndian(0, k) == seq(k, i => Oct(0))
  {
    if k > 0 { BigEndianZero(k - 1); }
  }
}
