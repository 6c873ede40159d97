// The protocol's messages (proto/diempb/diem.proto) and the small helpers over them
// (diem/types.go).
//
// A sub-message whose presence the code tests is an Option. Every other sub-message
// is its zero value when absent, which is how the generated getters read it: an absent
// hash is the empty byte string.
module Wire {

  datatype Option<+T> = None | Some(value: T)

  // ---------------------------------------------------------------- machine integers

  const MAX_U64: nat := 0xFFFF_FFFF_FFFF_FFFF

  type Octet = x: nat | x < 256
  type Id = x: nat | x < 0x1_0000_0000
  type Round = x: nat | x <= 0xFFFF_FFFF_FFFF_FFFF
  type Blob = s: seq<Octet> | |s| <= 0xFFFF_FFFF_FFFF_FFFF
  type Payload = p: seq<Blob> | |p| <= 0xFFFF_FFFF_FFFF_FFFF

  /** `r + 1` on a uint64, wrap-around included. */
  function Succ(r: Round): Round {
    if r == MAX_U64 then 0 else r + 1
  }

  function MaxRound(a: Round, b: Round): Round {
    if a >= b then a else b
  }

  // ---------------------------------------------------------------------- hash values

  /** One thing written into a SHA-256 state: an octet, or a 32-byte digest. */
  datatype Item = Oct(b: Octet) | Digest(h: Hash)

  /** A hash-valued field: bytes somebody chose, or the SHA-256 of a preimage.
      `Sha` is a free constructor, which is the idealisation of the hash: distinct
      preimages have distinct digests, and no chosen byte string is a digest. */
  datatype Hash = Raw(bytes: seq<Octet>) | Sha(preimage: seq<Item>)

  const HASH_LEN: nat := 32

  predicate ValidHash(h: Hash) {
    h.Raw? ==> |h.bytes| == HASH_LEN
  }

  /** The paper's bottom. */
  const ZERO_HASH: Hash := Raw([0, 0, 0, 0, 0, 0, 0, 0, 0, 0, 0, 0, 0, 0, 0, 0,
                                0, 0, 0, 0, 0, 0, 0, 0, 0, 0, 0, 0, 0, 0, 0, 0])

  // ------------------------------------------------------------------------- messages

  datatype Signature = Signature(signer: Id, sig: Blob)

  datatype VoteInfo = VoteInfo(id: Hash, round: Round, parentId: Hash, parentRound: Round,
                               execStateId: Hash)

  datatype LedgerCommitInfo = LedgerCommitInfo(commitStateId: Hash, voteInfoHash: Hash)

  datatype QuorumCert = QuorumCert(voteInfo: VoteInfo, ledgerCommitInfo: LedgerCommitInfo,
                                   signatures: seq<Signature>, author: Id,
                                   authorSig: Option<Signature>)

  datatype TimeoutVote = TimeoutVote(highQcRound: Round, sig: Signature)

  datatype TimeoutCert = TimeoutCert(round: Round, votes: seq<TimeoutVote>)

  datatype Block = Block(author: Id, round: Round, payload: Payload, qc: Option<QuorumCert>,
                         id: Hash)

  datatype ProposalMsg = ProposalMsg(block: Block, lastRoundTc: Option<TimeoutCert>,
                                     highCommitQc: Option<QuorumCert>, sender: Id,
                                     sig: Signature)

  datatype VoteMsg = VoteMsg(voteInfo: VoteInfo, ledgerCommitInfo: LedgerCommitInfo,
                             highCommitQc: Option<QuorumCert>, sender: Id, sig: Signature)

  datatype TimeoutInfo = TimeoutInfo(round: Round, highQc: Option<QuorumCert>, sender: Id,
                                     sig: Signature)

  datatype TimeoutMsg = TimeoutMsg(tmoInfo: TimeoutInfo, lastRoundTc: Option<TimeoutCert>,
                                   highCommitQc: Option<QuorumCert>)

  // -------------------------------------------------------------- helpers (types.go)

  /** An absent certificate is round 0. */
  function QCRound(qc: Option<QuorumCert>): Round {
    if qc.None? then 0 else qc.value.voteInfo.round
  }

  /** The paper's max_round: the later certificate, `b` on a tie. */
  function Higher(a: QuorumCert, b: QuorumCert): QuorumCert {
    if a.voteInfo.round > b.voteInfo.round then a else b
  }

  /** What a certificate is about; the empty id for an absent one. */
  function QCBlockId(qc: Option<QuorumCert>): Hash {
    if qc.None? then Raw([]) else qc.value.voteInfo.id
  }

  function ParentId(b: Block): Hash { QCBlockId(b.qc) }

  function QCSignatures(qc: Option<QuorumCert>): seq<Signature> {
    if qc.None? then [] else qc.value.signatures
  }

  /** A commit state that is not all zero. A digest never is. */
  predicate Commits(l: LedgerCommitInfo) {
    l.commitStateId.Sha? ||
    exists i :: 0 <= i < |l.commitStateId.bytes| && l.commitStateId.bytes[i] != 0
  }

  predicate Consecutive(blockRound: Round, round: Round) {
    Succ(round) == blockRound
  }

  function MaxHighQCRound(votes: seq<TimeoutVote>): Round {
    if votes == [] then 0
    else MaxRound(MaxHighQCRound(votes[..|votes| - 1]), votes[|votes| - 1].highQcRound)
  }

  /** The scan of types.go: the running maximum is the declared one. */
  method ScanMaxHighQCRound(tc: TimeoutCert) returns (highest: Round)
    ensures highest == MaxHighQCRound(tc.votes)
    ensures forall i :: 0 <= i < |tc.votes| ==> tc.votes[i].highQcRound <= highest
    ensures highest == 0 || exists i :: 0 <= i < |tc.votes| && tc.votes[i].highQcRound == highest
  {
    highest := 0;
    for i := 0 to |tc.votes|
      invariant highest == MaxHighQCRound(tc.votes[..i])
      invariant forall j :: 0 <= j < i ==> tc.votes[j].highQcRound <= highest
      invariant highest == 0 || exists j :: 0 <= j < i && tc.votes[j].highQcRound == highest
    {
      assert tc.votes[..i + 1][..i] == tc.votes[..i];
      highest := MaxRound(highest, tc.votes[i].highQcRound);
    }
    assert tc.votes[..|tc.votes|] == tc.votes;
  }

  lemma {:induction false} MaxHighQCRoundBounds(votes: seq<TimeoutVote>, i: nat)
    requires i < |votes|
    ensures votes[i].highQcRound <= MaxHighQCRound(votes)
  {
    var last := |votes| - 1;
    if i < last {
      MaxHighQCRoundBounds(votes[..last], i);
    }
  }

  /** A bound on every reported round is a bound on the maximum. */
  lemma {:induction false} MaxHighQCRoundLeast(votes: seq<TimeoutVote>, bound: Round)
    requires forall v :: v in votes ==> v.highQcRound <= bound
    ensures MaxHighQCRound(votes) <= bound
  {
    if votes != [] {
      var last := |votes| - 1;
      assert votes[last] in votes;
      MaxHighQCRoundLeast(votes[..last], bound);
    }
  }

  predicate WellFormed(round: Round, qcRound: Round, tc: Option<TimeoutCert>) {
    && round != 0
    && if Succ(qcRound) == round then tc.None? else tc.Some? && Succ(tc.value.round) == round
  }

  predicate WellFormedProposal(p: ProposalMsg) {
    p.block.qc.Some? && WellFormed(p.block.round, QCRound(p.block.qc), p.lastRoundTc)
  }

  predicate WellFormedTimeout(m: TimeoutMsg) {
    m.tmoInfo.highQc.Some? && WellFormed(m.tmoInfo.round, QCRound(m.tmoInfo.highQc), m.lastRoundTc)
  }

  /** core.go:321: a TC the certificate already makes redundant is dropped. */
  function JustifyingTC(qcRound: Round, round: Round, tc: Option<TimeoutCert>): Option<TimeoutCert> {
    if Succ(qcRound) == round then None else tc
  }
}
