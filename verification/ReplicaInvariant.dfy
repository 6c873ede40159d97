// What every step of a correct replica keeps: all certificates it holds verify, all votes and
// timeouts it has collected are genuine, and its commit frontier is the parent of a verified
// 2-chain.
module ReplicaInvariant {
  import opened Wire
  import opened Hashing
  import opened Quorums
  import opened Verification
  import opened Chains
  import opened LedgerModel
  import opened SafetyRules
  import opened Agreement
  import opened TreeModel
  import P = PacemakerModel
  import opened ReplicaModel
  import Sorting

  ghost predicate CommitCertified(k: Keyring, l: Ledger) {
    CommitId(l) == GENESIS_BLOCK.id || exists qc :: TwoChain(k, qc) && qc.voteInfo.parentId == CommitId(l)
  }

  /** No collected timeout reports a certificate higher than the replica's own. */
  ghost predicate Absorbed(r: Replica) {
    forall x, i :: x in r.pacemaker.timeouts && i in r.pacemaker.timeouts[x].infos
      ==> QCRound(i.highQc) <= r.tree.highQC.voteInfo.round
  }

  ghost predicate ReplicaInv(k: Keyring, r: Replica) {
    && LedgerInv(r.ledger) && CommitCertified(k, r.ledger)
    && TreeInv(k, r.tree)
    && P.PacemakerInv(k, r.pacemaker)
    && Absorbed(r)
  }

  lemma NewReplicaInv(k: Keyring)
    ensures ReplicaInv(k, NEW_REPLICA)
  {
    NewLedgerInv();
    NewTreeInv(k);
  }

  lemma CommitCertifiedGrows(k: Keyring, k': Keyring, l: Ledger)
    requires Grows(k, k') && CommitCertified(k, l)
    ensures CommitCertified(k', l)
  {
    hide VerifyQC;
    if CommitId(l) != GENESIS_BLOCK.id {
      var qc :| TwoChain(k, qc) && qc.voteInfo.parentId == CommitId(l);
      VerifyQCGrows(k, k', qc);
      assert TwoChain(k', qc);
    }
  }

  lemma ReplicaInvGrows(k: Keyring, k': Keyring, r: Replica)
    requires Grows(k, k') && ReplicaInv(k, r)
    ensures ReplicaInv(k', r)
  {
    hide CommitCertified;
    hide LedgerInv;
    hide TreeInv;
    hide P.PacemakerInv;
    CommitCertifiedGrows(k, k', r.ledger);
    TreeInvGrows(k, k', r.tree);
    P.PacemakerInvGrows(k, k', r.pacemaker);
  }

  // -------------------------------------------------------------------- certificates

  lemma CommittingIsTwoChain(k: Keyring, qc: QuorumCert)
    requires VerifyQC(k, qc) && Commits(qc.ledgerCommitInfo)
    ensures TwoChain(k, qc)
  {
    if qc.voteInfo.round == 0 { ZeroCommitsNothing(qc.ledgerCommitInfo); }
  }

  lemma CommitKeepsCertified(k: Keyring, l: Ledger, qc: QuorumCert)
    requires LedgerInv(l) && CommitCertified(k, l) && VerifyQC(k, qc) && Commits(qc.ledgerCommitInfo)
    ensures LedgerInv(Commit(l, qc.voteInfo.parentId)) && CommitCertified(k, Commit(l, qc.voteInfo.parentId))
  {
    CommitInv(l, qc.voteInfo.parentId);
    CommitExtendsLog(l, qc.voteInfo.parentId);
    CommittingIsTwoChain(k, qc);
    hide VerifyQC;
    hide LedgerInv;
    hide Commit;
  }

  lemma ProcessTreeQCInv(k: Keyring, r: Replica, qc: Option<QuorumCert>)
    requires ReplicaInv(k, r) && VerifyCommitQC(k, qc)
    ensures ReplicaInv(k, ProcessTreeQC(r, qc))
    ensures qc.Some? ==> ProcessTreeQC(r, qc).tree.highQC.voteInfo.round >= qc.value.voteInfo.round
  {
    hide VerifyQC;
    hide TreeInv;
    hide ProcessQC;
    hide LedgerInv;
    hide CommitCertified;
    hide Commit;
    hide P.PacemakerInv;
    if qc.Some? {
      ProcessQCInv(k, r.tree, qc.value);
      if Commits(qc.value.ledgerCommitInfo) { CommitKeepsCertified(k, r.ledger, qc.value); }
    }
  }

  lemma StartTimerKeeps(k: Keyring, r: Replica, p: P.Pacemaker, round: Round)
    requires ReplicaInv(k, r) && P.PacemakerInv(k, p) && p.timeouts == r.pacemaker.timeouts
    ensures ReplicaInv(k, r.(pacemaker := P.StartTimer(p, round)))
  {
    hide TreeInv;
    hide LedgerInv;
    hide CommitCertified;
    hide P.PacemakerInv;
    P.StartTimerInv(k, p, round);
  }

  lemma AdvanceQCInv(k: Keyring, r: Replica, qc: QuorumCert)
    requires ReplicaInv(k, r)
    ensures ReplicaInv(k, r.(pacemaker := P.AdvanceQC(r.pacemaker, qc).0))
  {
    hide TreeInv;
    hide LedgerInv;
    hide CommitCertified;
    if qc.voteInfo.round >= r.pacemaker.currentRound {
      StartTimerKeeps(k, r, r.pacemaker.(lastRoundTC := None), Succ(qc.voteInfo.round));
    }
  }

  lemma AdvanceTCInv(k: Keyring, r: Replica, tc: Option<TimeoutCert>)
    requires ReplicaInv(k, r) && VerifyTC(k, tc)
    ensures ReplicaInv(k, AdvanceRoundTC(r, tc))
  {
    hide TreeInv;
    hide LedgerInv;
    hide CommitCertified;
    if tc.Some? && tc.value.round >= r.pacemaker.currentRound {
      StartTimerKeeps(k, r, r.pacemaker.(lastRoundTC := tc), Succ(tc.value.round));
    }
  }

  lemma LeadersIrrelevant(k: Keyring, r: Replica, leaders: map<Round, Id>, c: Counters)
    requires ReplicaInv(k, r)
    ensures ReplicaInv(k, r.(leaders := leaders)) && ReplicaInv(k, r.(counters := c))
  {
    hide TreeInv;
    hide LedgerInv;
    hide CommitCertified;
    hide P.PacemakerInv;
  }

  lemma ProcessCertificateQCInv(cfg: Config, k: Keyring, r: Replica, qc: Option<QuorumCert>)
    requires ReplicaInv(k, r) && VerifyCommitQC(k, qc)
    ensures ReplicaInv(k, ProcessCertificateQC(cfg, r, qc).0)
    ensures ProcessCertificateQC(cfg, r, qc).0.counters == r.counters
    ensures qc.Some? ==> ProcessCertificateQC(cfg, r, qc).0.tree.highQC.voteInfo.round >= qc.value.voteInfo.round
  {
    hide ReplicaInv;
    hide VerifyQC;
    hide ProcessQC;
    hide Commit;
    hide P.AdvanceQC;
    if qc.Some? {
      var r1 := ProcessTreeQC(r, qc);
      ProcessTreeQCInv(k, r, qc);
      var r2 := r1.(leaders := UpdateLeaders(cfg, r1, qc.value));
      LeadersIrrelevant(k, r1, UpdateLeaders(cfg, r1, qc.value), r1.counters);
      AdvanceQCInv(k, r2, qc.value);
    }
  }

  lemma HighQCRises(cfg: Config, k: Keyring, r: Replica, qc: Option<QuorumCert>)
    requires ReplicaInv(k, r) && VerifyCommitQC(k, qc)
    ensures ProcessCertificateQC(cfg, r, qc).0.tree.highQC.voteInfo.round >= r.tree.highQC.voteInfo.round
  {
    hide VerifyQC;
    hide TreeInv;
    if qc.Some? { ProcessQCInv(k, r.tree, qc.value); }
  }

  lemma AbsorbInv(cfg: Config, k: Keyring, r: Replica, qc: Option<QuorumCert>, commitQC: Option<QuorumCert>,
                  tc: Option<TimeoutCert>)
    requires ReplicaInv(k, r) && VerifyCommitQC(k, qc) && VerifyCommitQC(k, commitQC) && VerifyTC(k, tc)
    ensures ReplicaInv(k, Absorb(cfg, r, qc, commitQC, tc))
    ensures Absorb(cfg, r, qc, commitQC, tc).counters == r.counters
    ensures Absorb(cfg, r, qc, commitQC, tc).tree.highQC.voteInfo.round >= QCRound(qc)
  {
    hide ReplicaInv;
    hide VerifyQC;
    hide VerifyTC;
    hide ProcessCertificateQC;
    ProcessCertificateQCInv(cfg, k, r, qc);
    var r1 := ProcessCertificateQC(cfg, r, qc).0;
    ProcessCertificateQCInv(cfg, k, r1, commitQC);
    HighQCRises(cfg, k, r1, commitQC);
    AdvanceTCInv(k, ProcessCertificateQC(cfg, r1, commitQC).0, tc);
  }

  lemma InsertInv(k: Keyring, r: Replica, b: Block)
    requires ReplicaInv(k, r) && ValidBlockId(b)
    ensures ReplicaInv(k, Insert(r, b).replica) && Insert(r, b).replica.counters == r.counters
  {
    hide BlockId;
    hide TreeInv;
    hide LedgerInv;
    hide Waiting;
    hide P.PacemakerInv;
    SpeculateInv(r.ledger, b);
    InsertBlockInv(k, r.tree, b);
    assert Speculate(r.ledger, b).log == r.ledger.log;
  }

  // -------------------------------------------------- certificates built from votes

  lemma CanonicalVerifies(k: Keyring, idx: Hash, sigs: seq<Signature>)
    requires Sorting.Distinct(SignerOf, sigs) && |sigs| >= k.Quorum()
    requires forall s :: s in sigs ==> k.Verifies(idx, s)
    ensures VerifyCert(k, idx, Canonical(sigs))
  {
    hide Sorting.SortBy;
    var out := Canonical(sigs);
    Sorting.SortAscends(SignerOf, sigs);
    Sorting.SortPermutes(SignerOf, sigs);
    assert |multiset(out)| == |out| && |multiset(sigs)| == |sigs|;
    forall i | 0 <= i < |out| ensures k.Verifies(idx, out[i]) {
      assert out[i] in multiset(out);
      assert out[i] in sigs;
    }
    forall i | 0 < i < |out| ensures out[i - 1].signer < out[i].signer {
      assert SignerOf(out[i - 1]) < SignerOf(out[i]);
    }
  }

  /** A quorum of genuine votes includes a correct one, whose rules the certificate inherits. */
  lemma QuorumOfVotesIsSound(execute: Execution, w: World, v: VoteInfo, l: LedgerCommitInfo, sigs: seq<Signature>)
    requires WorldInv(execute, w) && ValidVote(v, l) && VoteInfoHash(v) == l.voteInfoHash
    requires VerifyCert(w.keys, LedgerCommitDigest(l), sigs)
    ensures v.round > 0 && (Commits(l) ==> Consecutive(v.round, v.parentRound))
  {
    hide BlockId;
    hide LedgerCommitDigest;
    hide VoteInfoHash;
    var d := LedgerCommitDigest(l);
    CertSigners(w.keys, d, sigs);
    var r := QuorumHasCorrect(w.keys.validators, w.keys.faulty, Signers(sigs));
    assert (r, d) in w.keys.signed;
    assert Accounted(w, (r, d).0, (r, d).1);
    var i :| 0 <= i < |w.logs[r]| && StatementDigest(w.logs[r][i]) == d;
    var s := w.logs[r][i];
    assert Justified(execute, w.keys, s);
    VoteDigest(execute, w.keys, s, v, l);
    if l.commitStateId == ZERO_HASH { ZeroCommitsNothing(l); }
  }

  /** A certificate assembled from collected votes is accepted everywhere once its author has
      signed the set. */
  lemma LocalCertificateVerifies(execute: Execution, w: World, t: Tree, self: Id, v: VoteMsg, sig: Blob)
    requires WorldInv(execute, w) && VotesInv(w.keys, t) && VerifyVote(w.keys, v) && !HasVoted(t, v)
    requires |TreeModel.BucketWith(t, v).sigs| >= w.keys.Quorum() && self in w.logs
    ensures var qc := Certificate(self, TreeModel.BucketWith(t, v), sig);
            VerifyQC(Record(w, self, Aggregated(qc.signatures)).keys, qc)
  {
    hide LedgerCommitDigest;
    hide VoteInfoHash;
    hide QcSigsDigest;
    hide Canonical;
    var b := TreeModel.BucketWith(t, v);
    var idx := LedgerCommitDigest(v.ledgerCommitInfo);
    BucketWithInv(w.keys, t, v);
    CanonicalVerifies(w.keys, idx, b.sigs);
    QuorumOfVotesIsSound(execute, w, b.voteInfo, b.commit, Canonical(b.sigs));
    var k' := Record(w, self, Aggregated(Canonical(b.sigs))).keys;
    assert VerifyCert(k', idx, Canonical(b.sigs));
  }
}
