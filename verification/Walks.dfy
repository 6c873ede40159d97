// When a step returns: every reputation walk it starts has to end. The walks start where a
// certificate is processed, on the ledger as that certificate has left it.
module Walks {
  import opened Wire
  import opened LedgerModel
  import opened TreeModel
  import opened ReplicaModel
  import opened Election

  ghost predicate CertificateWalkEnds(cfg: Config, window: nat, exclude: nat, r: Replica, qc: Option<QuorumCert>) {
    qc.Some? && Fresh(r, qc.value) ==>
      Ends(Retained(ProcessTreeQC(r, qc).ledger.log, cfg.history), qc.value, window, exclude)
  }

  ghost predicate AbsorbWalksEnd(cfg: Config, window: nat, exclude: nat, r: Replica, qc: Option<QuorumCert>,
                                 commitQC: Option<QuorumCert>) {
    && CertificateWalkEnds(cfg, window, exclude, r, qc)
    && CertificateWalkEnds(cfg, window, exclude, ProcessCertificateQC(cfg, r, qc).0, commitQC)
  }

  ghost predicate VoteWalkEnds(cfg: Config, window: nat, exclude: nat, r: Replica, m: VoteMsg, inputs: Inputs) {
    var r1 := ProcessTreeQC(r, m.highCommitQc);
    var (tree, qc) := ProcessVote(cfg.self, cfg.Quorum(), r1.tree, m, inputs.authorSig);
    !OutOfWindow(r.pacemaker.currentRound, m.voteInfo.round)
    ==> CertificateWalkEnds(cfg, window, exclude, r1.(tree := tree), qc)
  }

  /** Exactly the walks of one step: those of the certificates it reads, and of the one it completes. */
  ghost predicate StepWalksEnd(cfg: Config, window: nat, exclude: nat, r: Replica, e: Event, inputs: Inputs) {
    match e
    case ProposalEvent(p) => AbsorbWalksEnd(cfg, window, exclude, r, p.block.qc, p.highCommitQc)
    case VoteEvent(m) => VoteWalkEnds(cfg, window, exclude, r, m, inputs)
    case TimeoutEvent(m) => AbsorbWalksEnd(cfg, window, exclude, r, m.tmoInfo.highQc, m.highCommitQc)
    case _ => true
  }

  // ------------------------------------------------------------ when no walk can go astray

  lemma DescentCertificate(cfg: Config, window: nat, exclude: nat, r: Replica, qc: Option<QuorumCert>)
    requires StoresDescend(r.ledger)
    ensures CertificateWalkEnds(cfg, window, exclude, r, qc)
    ensures StoresDescend(ProcessTreeQC(r, qc).ledger) && StoresDescend(ProcessCertificateQC(cfg, r, qc).0.ledger)
  {
    hide StoresDescend;
    hide Ends;
    hide Commit;
    hide Descends;
    if qc.Some? {
      CommitKeepsDescent(r.ledger, qc.value.voteInfo.parentId);
      var l := ProcessTreeQC(r, qc).ledger;
      StoredKeptDescend(l, cfg.history);
      DescentEnds(Retained(l.log, cfg.history), qc.value, window, exclude);
    }
  }

  /** Over a ledger that stores only blocks in descending rounds, every step's walks end. */
  lemma DescentWalksEnd(cfg: Config, window: nat, exclude: nat, r: Replica, e: Event, inputs: Inputs)
    requires StoresDescend(r.ledger)
    ensures StepWalksEnd(cfg, window, exclude, r, e, inputs)
  {
    hide StoresDescend;
    hide CertificateWalkEnds;
    hide ProcessTreeQC;
    hide ProcessCertificateQC;
    hide ProcessVote;
    match e
    case ProposalEvent(p) =>
      DescentCertificate(cfg, window, exclude, r, p.block.qc);
      DescentCertificate(cfg, window, exclude, ProcessCertificateQC(cfg, r, p.block.qc).0, p.highCommitQc);
    case VoteEvent(m) =>
      DescentCertificate(cfg, window, exclude, r, m.highCommitQc);
      var r1 := ProcessTreeQC(r, m.highCommitQc);
      var (tree, qc) := ProcessVote(cfg.self, cfg.Quorum(), r1.tree, m, inputs.authorSig);
      DescentCertificate(cfg, window, exclude, r1.(tree := tree), qc);
    case TimeoutEvent(m) =>
      DescentCertificate(cfg, window, exclude, r, m.tmoInfo.highQc);
      DescentCertificate(cfg, window, exclude, ProcessCertificateQC(cfg, r, m.tmoInfo.highQc).0, m.highCommitQc);
    case _ =>
  }
}
