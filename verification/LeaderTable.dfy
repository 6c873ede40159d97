// For which round an election counts: the round after next of the certificate's block, and no other. Said
// of the leader each round is expected to have.
module LeaderTable {
  import opened Wire
  import opened Verification
  import opened LedgerModel
  import opened SafetyRules
  import opened Agreement
  import opened TreeModel
  import P = PacemakerModel
  import opened ReplicaModel
  import opened ReplicaInvariant
  import opened System
  import opened Ceiling
  import opened Rounds
  import opened Duties
  import opened HighCerts
  import Storage

  /** A certificate of a contiguous 2-chain exactly one round behind, on which somebody is elected, gives
      that leader to the round after the current one and leaves every other round from the current one
      on as it was. Any other certificate leaves them all. */
  lemma ElectionCounts(cfg: Config, r: Replica, qc: QuorumCert)
    ensures var r' := ProcessCertificateQC(cfg, r, Some(qc)).0;
            var current := r.pacemaker.currentRound;
            var elected := cfg.elect(qc, Retained(r'.ledger.log, cfg.history));
            var counts := Succ(qc.voteInfo.parentRound) == qc.voteInfo.round && Succ(qc.voteInfo.round) == current
                          && current < MAX_U64 && elected.Some?;
            && (counts ==> LeaderOf(cfg, r', current + 1) == elected.value)
            && (forall x: Round :: x >= current && !(counts && x == current + 1) ==>
                  LeaderOf(cfg, r', x) == LeaderOf(cfg, r, x))
            && (Succ(qc.voteInfo.round) != current ==> r'.leaders == r.leaders)
  {
    hide ProcessQC;
    hide Commit;
    hide P.AdvanceQC;
    hide Retained;
  }

  /** Somebody was elected for `x` on a certificate two rounds below. */
  ghost predicate Elects(cfg: Config, qc: QuorumCert, x: Round, id: Id) {
    && Succ(qc.voteInfo.parentRound) == qc.voteInfo.round && qc.voteInfo.round + 2 == x
    && exists kept :: cfg.elect(qc, kept) == Some(id)
  }

  /** Reading a certificate changes an expected leader only by an election on it. */
  lemma CertificateElects(cfg: Config, r: Replica, qc: Option<QuorumCert>, x: Round)
    requires QCRound(qc) < MAX_U64
    ensures var r' := ProcessCertificateQC(cfg, r, qc).0;
            && r.pacemaker.currentRound <= r'.pacemaker.currentRound
            && (x >= r'.pacemaker.currentRound && LeaderOf(cfg, r', x) != LeaderOf(cfg, r, x) ==>
                  qc.Some? && Elects(cfg, qc.value, x, LeaderOf(cfg, r', x)))
  {
    hide ProcessTreeQC;
    hide UpdateLeaders;
    hide LeaderOf;
    hide Retained;
    if qc.Some? {
      KeepsPacemaker(r, qc);
      ElectionCounts(cfg, r, qc.value);
      var r' := ProcessCertificateQC(cfg, r, qc).0;
      assert cfg.elect(qc.value, Retained(r'.ledger.log, cfg.history)).Some? ==>
          exists kept :: cfg.elect(qc.value, kept) == cfg.elect(qc.value, Retained(r'.ledger.log, cfg.history));
    }
  }

  lemma KeepsPacemaker(r: Replica, qc: Option<QuorumCert>)
    ensures ProcessTreeQC(r, qc).pacemaker == r.pacemaker && ProcessTreeQC(r, qc).leaders == r.leaders
  { }

  lemma AbsorbElects(cfg: Config, r: Replica, p: Option<QuorumCert>, q: Option<QuorumCert>, tc: Option<TimeoutCert>,
                     x: Round)
    requires QCRound(p) < MAX_U64 && QCRound(q) < MAX_U64 && TcBelowMax(tc)
    ensures var r' := Absorb(cfg, r, p, q, tc);
            x >= r'.pacemaker.currentRound && LeaderOf(cfg, r', x) != LeaderOf(cfg, r, x) ==>
              exists qc :: (p == Some(qc) || q == Some(qc)) && Elects(cfg, qc, x, LeaderOf(cfg, r', x))
  {
    hide ProcessCertificateQC;
    hide Elects;
    hide LeaderOf;
    var r1 := ProcessCertificateQC(cfg, r, p).0;
    CertificateElects(cfg, r, p, x);
    CertificateElects(cfg, r1, q, x);
    var r2 := ProcessCertificateQC(cfg, r1, q).0;
    SameLeaders(cfg, r2, AdvanceRoundTC(r2, tc), x);
  }

  lemma SameLeaders(cfg: Config, r: Replica, r': Replica, x: Round)
    requires r.leaders == r'.leaders
    ensures LeaderOf(cfg, r, x) == LeaderOf(cfg, r', x)
  { }

  /** From the round the step ends in on, expected leaders change only by an election on a certificate
      the step met, two rounds below. */
  ghost predicate ChangesByElection(cfg: Config, r: Replica, e: Event, o: Outcome, x: Round) {
    x >= o.replica.pacemaker.currentRound && LeaderOf(cfg, o.replica, x) != LeaderOf(cfg, r, x) ==>
      exists qc :: Meets(cfg, r, e, o, qc) && Elects(cfg, qc, x, LeaderOf(cfg, o.replica, x))
  }

  lemma ProposalElects(cfg: Config, k: Keyring, r: Replica, p: ProposalMsg, inputs: Inputs, x: Round)
    requires BelowMax(ProposalEvent(p))
    ensures ChangesByElection(cfg, r, ProposalEvent(p), HandleProposal(cfg, k, r, p, inputs), x)
  {
    hide Absorb;
    hide ReplicaModel.MakeVote;
    hide Insert;
    hide MayVote;
    hide Elects;
    hide LeaderOf;
    AbsorbElects(cfg, r, p.block.qc, p.highCommitQc, p.lastRoundTc, x);
    var r1 := Absorb(cfg, r, p.block.qc, p.highCommitQc, p.lastRoundTc);
    InsertDoes(r1, p.block);
    if p.block.round == r1.pacemaker.currentRound { MakeVoteDoes(cfg, k, Insert(r1, p.block).replica, p,
                                                                 inputs.voteSig); }
    SameLeaders(cfg, r1, HandleProposal(cfg, k, r, p, inputs).replica, x);
  }

  lemma TimeoutElects(cfg: Config, k: Keyring, r: Replica, m: TimeoutMsg, inputs: Inputs, x: Round)
    requires BelowMax(TimeoutEvent(m))
    ensures ChangesByElection(cfg, r, TimeoutEvent(m), HandleTimeout(cfg, k, r, m, inputs), x)
  {
    hide Absorb;
    hide ProcessRemoteTimeout;
    hide ProcessNewRound;
    hide Elects;
    hide LeaderOf;
    AbsorbElects(cfg, r, m.tmoInfo.highQc, m.highCommitQc, m.lastRoundTc, x);
    var r1 := Absorb(cfg, r, m.tmoInfo.highQc, m.highCommitQc, m.lastRoundTc);
    RemoteTimeoutDoes(cfg, k, r1, m.tmoInfo, inputs.timeoutSig);
    var (o, tc) := ProcessRemoteTimeout(cfg, k, r1, m.tmoInfo, inputs.timeoutSig);
    Storage.RemoteTimeoutKeepsRest(cfg, k, r1, m.tmoInfo, inputs.timeoutSig);
    if tc.Some? { NewRoundDoes(cfg, AdvanceRoundTC(o.replica, tc), tc, inputs); }
    SameLeaders(cfg, r1, HandleTimeout(cfg, k, r, m, inputs).replica, x);
  }

  lemma VoteElects(cfg: Config, k: Keyring, r: Replica, m: VoteMsg, inputs: Inputs, x: Round)
    requires ReplicaInv(k, r) && VerifyVote(k, m) && r.pacemaker.currentRound >= 1
    ensures ChangesByElection(cfg, r, VoteEvent(m), HandleVote(cfg, r, m, inputs), x)
  {
    hide ReplicaInv;
    hide VerifyVote;
    hide ProcessTreeQC;
    hide ProcessVote;
    hide ProcessCertificateQC;
    hide ProcessNewRound;
    hide Elects;
    hide LeaderOf;
    var e, o := VoteEvent(m), HandleVote(cfg, r, m, inputs);
    var r1 := ProcessTreeQC(r, m.highCommitQc);
    KeepsPacemaker(r, m.highCommitQc);
    var (tree, qc) := ProcessVote(cfg.self, cfg.Quorum(), r1.tree, m, inputs.authorSig);
    var r2 := r1.(tree := tree);
    SameLeaders(cfg, r, r2, x);
    if qc.Some? && !OutOfWindow(r.pacemaker.currentRound, m.voteInfo.round) {
      CompletedInfo(cfg, k, r, m, inputs.authorSig);
      CertificateElects(cfg, r2, qc, x);
      var r3 := ProcessCertificateQC(cfg, r2, qc).0;
      NewRoundDoes(cfg, r3, None, inputs);
      assert o.replica == r3 && Aggregated(qc.value.signatures) in o.signed;
      assert Meets(cfg, r, e, o, qc.value);
    }
  }

  lemma StepElects(cfg: Config, k: Keyring, r: Replica, e: Event, inputs: Inputs, x: Round)
    requires ReplicaInv(k, r) && VerifiedEvent(k, e) && BelowMax(e) && r.pacemaker.currentRound >= 1
    ensures ChangesByElection(cfg, r, e, Step(cfg, k, r, e, inputs), x)
  {
    hide ReplicaInv;
    hide VerifyVote;
    hide VerifyProposal;
    hide VerifyTimeout;
    hide HandleProposal;
    hide HandleVote;
    hide HandleTimeout;
    hide LocalTimeoutRound;
    hide Insert;
    hide LeaderOf;
    match e
    case ProposalEvent(p) => ProposalElects(cfg, k, r, p, inputs, x);
    case VoteEvent(m) => VoteElects(cfg, k, r, m, inputs, x);
    case TimeoutEvent(m) => TimeoutElects(cfg, k, r, m, inputs, x);
    case LocalTimeoutEvent(_) =>
      LocalTimeoutDoes(cfg, k, r, inputs.timeoutSig);
      SameLeaders(cfg, r, LocalTimeoutRound(cfg, k, r, inputs.timeoutSig).replica, x);
    case BlockEvent(b) =>
      InsertDoes(r, b);
      SameLeaders(cfg, r, Insert(r, b).replica, x);
    case BlockRequestEvent(_) =>
  }

  /** In every run, from the round a replica is in on, its expected leaders change only by an election on a
      contiguous 2-chain it has just met, for the round two above it. */
  lemma LeadersChangeByElection(net: Network, states: seq<SystemState>, actions: seq<Action>, i: nat, x: Round)
    requires ValidNetwork(net) && IsRun(net, states, actions) && |actions| < MAX_U64
    requires i < |actions| && actions[i].Handle?
    ensures var a := actions[i];
            ChangesByElection(net.configs[a.who], states[i].replicas[a.who], a.event,
                              OutcomeOf(net, states[i], a), x)
  {
    hide ReplicaInv;
    hide WorldInv;
    hide Covers;
    hide BelowMax;
    hide VerifiedEvent;
    hide Step;
    hide ChangesByElection;
    var a := actions[i];
    RunInv(net, states, actions, i);
    SigningDiscipline(net, states, actions, i, a.who);
    RoundsRiseSlowly(net, states, actions, i);
    StepElects(net.configs[a.who], states[i].world.keys, states[i].replicas[a.who], a.event, a.inputs, x);
  }
}
