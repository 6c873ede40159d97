// The edge checks of diem/verify.go: every predicate an inbound message must pass.
module Verification {
  import opened Wire
  import opened Hashing
  import opened Quorums

  /** The replica set and everything its correct members have signed so far. Signatures are
      unforgeable: one verifies exactly when its signer is faulty, and so may sign anything
      at any time, or has signed that digest. */
  datatype Keyring = Keyring(validators: set<Id>, faulty: set<Id>, signed: set<(Id, Hash)>) {

    function Quorum(): nat { QuorumSize(|validators|) }

    predicate Verifies(digest: Hash, sig: Signature) {
      sig.signer in faulty || (sig.signer, digest) in signed
    }

    ghost predicate Valid() {
      && faulty <= validators
      && |faulty| <= Faulty(|validators|)
      && forall p :: p in signed ==> p.0 in validators && p.0 !in faulty
    }

    function Sign(signer: Id, digest: Hash): Keyring {
      this.(signed := signed + {(signer, digest)})
    }
  }

  /** `k'` is `k` after more signing. */
  ghost predicate Grows(k: Keyring, k': Keyring) {
    k'.validators == k.validators && k'.faulty == k.faulty && k.signed <= k'.signed
  }

  predicate ValidVote(v: VoteInfo, l: LedgerCommitInfo) {
    ValidVoteInfo(v) && ValidHash(l.commitStateId) && ValidHash(l.voteInfoHash)
  }

  /** A set of signers has exactly one list in this form. */
  predicate Ordered(sigs: seq<Signature>) {
    forall i :: 0 < i < |sigs| ==> sigs[i - 1].signer < sigs[i].signer
  }

  predicate VerifyCert(k: Keyring, digest: Hash, sigs: seq<Signature>) {
    && Ordered(sigs)
    && (forall i :: 0 <= i < |sigs| ==> k.Verifies(digest, sigs[i]))
    && |sigs| >= k.Quorum()
  }

  predicate VerifyAuthor(k: Keyring, qc: QuorumCert) {
    qc.authorSig.Some? && qc.authorSig.value.signer == qc.author
    && k.Verifies(QcSigsDigest(qc.signatures), qc.authorSig.value)
  }

  predicate VerifyQC(k: Keyring, qc: QuorumCert) {
    && ValidVote(qc.voteInfo, qc.ledgerCommitInfo)
    && if qc.voteInfo.round == 0 then qc == GENESIS_QC else
       && VoteInfoHash(qc.voteInfo) == qc.ledgerCommitInfo.voteInfoHash
       && (Commits(qc.ledgerCommitInfo) ==> Consecutive(qc.voteInfo.round, qc.voteInfo.parentRound))
       && VerifyCert(k, LedgerCommitDigest(qc.ledgerCommitInfo), qc.signatures)
       && VerifyAuthor(k, qc)
  }

  predicate VerifyOptQC(k: Keyring, qc: Option<QuorumCert>) { qc.Some? && VerifyQC(k, qc.value) }

  /** An absent commit certificate is accepted: it is a hint. */
  predicate VerifyCommitQC(k: Keyring, qc: Option<QuorumCert>) { qc.Some? ==> VerifyQC(k, qc.value) }

  predicate OrderedVotes(votes: seq<TimeoutVote>) {
    forall i :: 0 < i < |votes| ==> votes[i - 1].sig.signer < votes[i].sig.signer
  }

  predicate VerifyTC(k: Keyring, tc: Option<TimeoutCert>) {
    tc.Some? ==>
      && tc.value.round != 0
      && OrderedVotes(tc.value.votes)
      && (forall i :: 0 <= i < |tc.value.votes| ==>
            k.Verifies(TimeoutDigest(tc.value.round, tc.value.votes[i].highQcRound), tc.value.votes[i].sig))
      && |tc.value.votes| >= k.Quorum()
  }

  predicate VerifyProposal(k: Keyring, p: ProposalMsg) {
    && WellFormedProposal(p)
    && QCRound(p.block.qc) < p.block.round
    && ValidBlockId(p.block)
    && p.sig.signer == p.sender && k.Verifies(p.block.id, p.sig)
    && VerifyOptQC(k, p.block.qc) && VerifyCommitQC(k, p.highCommitQc) && VerifyTC(k, p.lastRoundTc)
  }

  predicate VerifyTimeout(k: Keyring, m: TimeoutMsg) {
    && WellFormedTimeout(m)
    && m.tmoInfo.sig.signer == m.tmoInfo.sender
    && k.Verifies(TimeoutDigest(m.tmoInfo.round, QCRound(m.tmoInfo.highQc)), m.tmoInfo.sig)
    && VerifyOptQC(k, m.tmoInfo.highQc) && VerifyCommitQC(k, m.highCommitQc) && VerifyTC(k, m.lastRoundTc)
  }

  predicate VerifyVote(k: Keyring, m: VoteMsg) {
    && m.sig.signer == m.sender && ValidVote(m.voteInfo, m.ledgerCommitInfo)
    && VoteInfoHash(m.voteInfo) == m.ledgerCommitInfo.voteInfoHash
    && k.Verifies(LedgerCommitDigest(m.ledgerCommitInfo), m.sig)
    && VerifyCommitQC(k, m.highCommitQc)
  }

  predicate VerifyBlock(b: Block, id: Hash) { b.id == id && ValidBlockId(b) }

  /** How far passing the check of verify.go:189 identifies a block with a well-sized parent: a
      passing copy has its author, round and payload, and has its parent exactly when the copy's
      parent id is well sized too, which it always is when the parent is a digest. */
  lemma VerifyBlockIdentifies(b: Block, copy: Block)
    requires ValidBlockId(b) && ValidHash(ParentId(b)) && VerifyBlock(copy, b.id)
    ensures copy.author == b.author && copy.round == b.round && copy.payload == b.payload
    ensures ParentId(copy) == ParentId(b) <==> ValidHash(ParentId(copy))
    ensures ValidHash(ParentId(copy)) && |QCSignatures(b.qc)| <= MAX_U64 && |QCSignatures(copy.qc)| <= MAX_U64
            ==> QCSignatures(copy.qc) == QCSignatures(b.qc)
    ensures ParentId(b).Sha? ==> ParentId(copy) == ParentId(b)
  {
    hide BlockId;
    BlockIdInjective(b, copy);
    if ParentId(b).Sha? { DigestParentIsFixed(b, copy); }
  }

  // ----------------------------------------------------------- what certificates contain

  function Signers(sigs: seq<Signature>): set<Id> { set i | 0 <= i < |sigs| :: sigs[i].signer }

  lemma {:induction false} OrderedAscends(sigs: seq<Signature>, i: nat, j: nat)
    requires Ordered(sigs) && i < j < |sigs|
    ensures sigs[i].signer < sigs[j].signer
    decreases j - i
  {
    if i < j - 1 { OrderedAscends(sigs, i, j - 1); }
  }

  lemma {:induction false} OrderedSignersCount(sigs: seq<Signature>)
    requires Ordered(sigs)
    ensures |Signers(sigs)| == |sigs|
  {
    if sigs != [] {
      var last := |sigs| - 1;
      var front := sigs[..last];
      OrderedSignersCount(front);
      forall i | 0 <= i < last ensures sigs[i].signer != sigs[last].signer { OrderedAscends(sigs, i, last); }
      assert sigs[last].signer !in Signers(front);
      assert forall i :: 0 <= i < last ==> sigs[i] == front[i];
      assert Signers(sigs) == Signers(front) + {sigs[last].signer};
    }
  }

  /** A certificate's signatures, as a set of replicas that really signed its digest. */
  lemma CertSigners(k: Keyring, digest: Hash, sigs: seq<Signature>)
    requires k.Valid() && VerifyCert(k, digest, sigs)
    ensures |Signers(sigs)| >= k.Quorum() && Signers(sigs) <= k.validators
    ensures forall s :: s in Signers(sigs) && s !in k.faulty ==> (s, digest) in k.signed
  {
    OrderedSignersCount(sigs);
    forall s | s in Signers(sigs)
      ensures s in k.validators && (s !in k.faulty ==> (s, digest) in k.signed)
    {
      var i :| 0 <= i < |sigs| && sigs[i].signer == s;
      assert k.Verifies(digest, sigs[i]);
      if s !in k.faulty {
        assert (s, digest) in k.signed;
        assert (s, digest).0 in k.validators;
      }
    }
  }

  function VoteSigs(votes: seq<TimeoutVote>): (s: seq<Signature>)
    ensures |s| == |votes| && forall i :: 0 <= i < |votes| ==> s[i] == votes[i].sig
  {
    if votes == [] then [] else VoteSigs(votes[..|votes| - 1]) + [votes[|votes| - 1].sig]
  }

  lemma TCSigners(k: Keyring, tc: TimeoutCert)
    requires k.Valid() && VerifyTC(k, Some(tc))
    ensures |Signers(VoteSigs(tc.votes))| >= k.Quorum() && Signers(VoteSigs(tc.votes)) <= k.validators
    ensures forall i :: 0 <= i < |tc.votes| && tc.votes[i].sig.signer !in k.faulty
              ==> (tc.votes[i].sig.signer, TimeoutDigest(tc.round, tc.votes[i].highQcRound)) in k.signed
  {
    var sigs := VoteSigs(tc.votes);
    OrderedSignersCount(sigs);
    forall i | 0 <= i < |tc.votes|
      ensures tc.votes[i].sig.signer in k.validators
    {
      var v := tc.votes[i];
      assert k.Verifies(TimeoutDigest(tc.round, v.highQcRound), v.sig);
      if v.sig.signer !in k.faulty {
        var p := (v.sig.signer, TimeoutDigest(tc.round, v.highQcRound));
        assert p in k.signed && p.0 in k.validators;
      }
    }
  }

  // ------------------------------------------------------------------------ monotonicity

  /** More signing never invalidates a certificate. */
  lemma VerifyQCGrows(k: Keyring, k': Keyring, qc: QuorumCert)
    requires Grows(k, k') && VerifyQC(k, qc)
    ensures VerifyQC(k', qc)
  { }

  lemma VerifyTCGrows(k: Keyring, k': Keyring, tc: Option<TimeoutCert>)
    requires Grows(k, k') && VerifyTC(k, tc)
    ensures VerifyTC(k', tc)
  { }

}
