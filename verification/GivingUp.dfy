// A replica can always give up its round: its counters never outrun it and it always holds what it needs
// to justify a timeout, so a live local timeout is never silent but for one stated reason.
module GivingUp {
  import opened Wire
  import opened Hashing
  import opened Verification
  import opened LedgerModel
  import opened SafetyRules
  import opened Agreement
  import opened TreeModel
  import P = PacemakerModel
  import opened ReplicaModel
  import opened ReplicaInvariant
  import opened System
  import opened Ceiling
  import opened Duties
  import opened HighCerts

  /** The counters are within the replica's round and highest certificate, and the round was entered on
      the remembered TC or on a certificate not above the highest. */
  ghost predicate InStep(r: Replica) {
    var p, high := r.pacemaker, r.tree.highQC.voteInfo.round;
    && p.currentRound >= 1 && r.counters.highestVoteRound <= p.currentRound && r.counters.highestQCRound <= high
    && if p.lastRoundTC.Some? then p.lastRoundTC.value.round + 1 == p.currentRound else p.currentRound <= high + 1
  }

  lemma CertificateInStep(cfg: Config, r: Replica, qc: Option<QuorumCert>)
    requires InStep(r) && QCRound(qc) < MAX_U64
    ensures InStep(ProcessCertificateQC(cfg, r, qc).0)
  {
    hide ProcessQC;
    hide Commit;
    hide UpdateLeaders;
    if qc.Some? { TreeReads(r.tree, qc.value); }
  }

  lemma TcInStep(r: Replica, tc: Option<TimeoutCert>)
    requires InStep(r) && TcBelowMax(tc)
    ensures InStep(AdvanceRoundTC(r, tc))
  { }

  lemma AbsorbInStep(cfg: Config, r: Replica, qc: Option<QuorumCert>, commitQC: Option<QuorumCert>,
                     tc: Option<TimeoutCert>)
    requires InStep(r) && QCRound(qc) < MAX_U64 && QCRound(commitQC) < MAX_U64 && TcBelowMax(tc)
    ensures InStep(Absorb(cfg, r, qc, commitQC, tc))
    ensures qc.Some? ==> Absorb(cfg, r, qc, commitQC, tc).tree.highQC.voteInfo.round >= qc.value.voteInfo.round
  {
    hide ProcessCertificateQC;
    hide TreeAfter;
    hide InStep;
    CertificateInStep(cfg, r, qc);
    CertificateInStep(cfg, ProcessCertificateQC(cfg, r, qc).0, commitQC);
    TcInStep(ProcessCertificateQC(cfg, ProcessCertificateQC(cfg, r, qc).0, commitQC).0, tc);
    AbsorbTree(cfg, r, qc, commitQC, tc);
    TreeReadsTwo(r.tree, qc, commitQC);
  }

  lemma LocalTimeoutInStep(cfg: Config, k: Keyring, r: Replica, sig: Option<Blob>)
    requires InStep(r)
    ensures InStep(LocalTimeoutRound(cfg, k, r, sig).replica)
  {
    hide MayTimeout;
  }

  lemma RemoteTimeoutInStep(cfg: Config, k: Keyring, r: Replica, info: TimeoutInfo, sig: Option<Blob>)
    requires InStep(r) && info.round < MAX_U64
    ensures var (o, tc) := ProcessRemoteTimeout(cfg, k, r, info, sig); InStep(o.replica) && TcBelowMax(tc)
  {
    hide LocalTimeoutRound;
    hide P.BucketWith;
    LocalTimeoutInStep(cfg, k, r.(pacemaker := P.Stop(P.Collect(r.pacemaker, info))), sig);
  }

  lemma ProposalInStep(cfg: Config, k: Keyring, r: Replica, p: ProposalMsg, inputs: Inputs)
    requires InStep(r) && BelowMax(ProposalEvent(p)) && p.block.qc.Some?
    ensures InStep(HandleProposal(cfg, k, r, p, inputs).replica)
  {
    hide Absorb;
    hide Insert;
    hide BallotFor;
    AbsorbInStep(cfg, r, p.block.qc, p.highCommitQc, p.lastRoundTc);
    var r1 := Absorb(cfg, r, p.block.qc, p.highCommitQc, p.lastRoundTc);
    InsertDoes(r1, p.block);
  }

  lemma TimeoutInStep(cfg: Config, k: Keyring, r: Replica, m: TimeoutMsg, inputs: Inputs)
    requires InStep(r) && BelowMax(TimeoutEvent(m))
    ensures InStep(HandleTimeout(cfg, k, r, m, inputs).replica)
  {
    hide Absorb;
    hide ProcessRemoteTimeout;
    hide ProcessNewRound;
    hide InStep;
    hide P.AdvanceTC;
    AbsorbInStep(cfg, r, m.tmoInfo.highQc, m.highCommitQc, m.lastRoundTc);
    var r1 := Absorb(cfg, r, m.tmoInfo.highQc, m.highCommitQc, m.lastRoundTc);
    RemoteTimeoutInStep(cfg, k, r1, m.tmoInfo, inputs.timeoutSig);
    var (o, tc) := ProcessRemoteTimeout(cfg, k, r1, m.tmoInfo, inputs.timeoutSig);
    if tc.Some? {
      TcInStep(o.replica, tc);
      NewRoundDoes(cfg, AdvanceRoundTC(o.replica, tc), tc, inputs);
    }
  }

  lemma CountingInStep(cfg: Config, r: Replica, m: VoteMsg, sig: Option<Blob>)
    requires InStep(r)
    ensures var r1 := ProcessTreeQC(r, m.highCommitQc);
            InStep(r1.(tree := ProcessVote(cfg.self, cfg.Quorum(), r1.tree, m, sig).0))
  {
    hide ProcessQC;
    hide ProcessVote;
    hide Commit;
    if m.highCommitQc.Some? { TreeReads(r.tree, m.highCommitQc.value); }
    CountingKeepsHigh(cfg, ProcessTreeQC(r, m.highCommitQc).tree, m, sig);
  }

  lemma VoteInStep(cfg: Config, k: Keyring, r: Replica, m: VoteMsg, inputs: Inputs)
    requires ReplicaInv(k, r) && VerifyVote(k, m) && InStep(r)
    ensures InStep(HandleVote(cfg, r, m, inputs).replica)
  {
    hide ReplicaInv;
    hide VerifyVote;
    hide ProcessTreeQC;
    hide ProcessVote;
    hide ProcessCertificateQC;
    hide ProcessNewRound;
    CountingInStep(cfg, r, m, inputs.authorSig);
    var r1 := ProcessTreeQC(r, m.highCommitQc);
    var (tree, qc) := ProcessVote(cfg.self, cfg.Quorum(), r1.tree, m, inputs.authorSig);
    if qc.Some? && !OutOfWindow(r.pacemaker.currentRound, m.voteInfo.round) {
      CompletedInfo(cfg, k, r, m, inputs.authorSig);
      CertificateInStep(cfg, r1.(tree := tree), qc);
      NewRoundDoes(cfg, ProcessCertificateQC(cfg, r1.(tree := tree), qc).0, None, inputs);
    }
  }

  lemma StepInStep(cfg: Config, k: Keyring, r: Replica, e: Event, inputs: Inputs)
    requires ReplicaInv(k, r) && VerifiedEvent(k, e) && BelowMax(e) && InStep(r)
    ensures InStep(Step(cfg, k, r, e, inputs).replica)
  {
    hide ReplicaInv;
    hide VerifyVote;
    hide VerifyQC;
    hide VerifyTC;
    hide VerifyTimeout;
    hide BlockId;
    hide HandleProposal;
    hide HandleVote;
    hide HandleTimeout;
    hide LocalTimeoutRound;
    hide Insert;
    match e
    case ProposalEvent(p) => ProposalInStep(cfg, k, r, p, inputs);
    case VoteEvent(m) => VoteInStep(cfg, k, r, m, inputs);
    case TimeoutEvent(m) => TimeoutInStep(cfg, k, r, m, inputs);
    case LocalTimeoutEvent(_) => LocalTimeoutInStep(cfg, k, r, inputs.timeoutSig);
    case BlockEvent(b) => InsertDoes(r, b);
    case BlockRequestEvent(_) =>
  }

  lemma NextInStep(net: Network, s: SystemState, a: Action, r: Id)
    requires ValidNetwork(net) && SystemInv(net, s) && Enabled(net, s, a) && (a.Handle? ==> BelowMax(a.event))
    requires r in s.replicas ==> InStep(s.replicas[r])
    requires r in Next(net, s, a).replicas
    ensures InStep(Next(net, s, a).replicas[r])
  {
    hide ReplicaInv;
    hide WorldInv;
    hide Covers;
    hide VerifiedEvent;
    hide BelowMax;
    hide Step;
    hide ProcessNewRound;
    if a.who == r {
      match a
      case StartUp(_, inputs) =>
        NewRoundDoes(net.configs[r], NEW_REPLICA.(pacemaker := P.AdvanceQC(P.NEW_PACEMAKER, GENESIS_QC).0), None,
                     inputs);
      case Handle(_, e, inputs) => StepInStep(net.configs[r], s.world.keys, s.replicas[r], e, inputs);
    }
  }

  /** In every run a replica's counters stay within its round and its highest certificate. */
  lemma {:induction false} CountersKeepUp(net: Network, states: seq<SystemState>, actions: seq<Action>, i: nat, r: Id)
    requires ValidNetwork(net) && IsRun(net, states, actions) && |actions| < MAX_U64
    requires i < |states| && r in states[i].replicas
    ensures InStep(states[i].replicas[r])
  {
    hide SystemInv;
    hide InStep;
    hide BelowMax;
    hide Next;
    if i > 0 {
      RunInv(net, states, actions, i - 1);
      RoundsRiseSlowly(net, states, actions, i - 1);
      if r in states[i - 1].replicas { CountersKeepUp(net, states, actions, i - 1, r); }
      NextInStep(net, states[i - 1], actions[i - 1], r);
    }
  }

  /** The counters go to the block's round and its certificate's as soon as the rules allow a vote, whether
      or not it can then be signed, and not otherwise. */
  lemma VotesMoveCounters(cfg: Config, k: Keyring, r: Replica, p: ProposalMsg, inputs: Inputs)
    ensures var o := HandleProposal(cfg, k, r, p, inputs);
            var allowed := Authorised(cfg, o.replica, p) && MayVote(k, r.counters, p.block, p.lastRoundTc)
                           && Ready(o.replica.ledger, p.block.id);
            && o.replica.counters.highestVoteRound ==
                 (if allowed then MaxRound(p.block.round, r.counters.highestVoteRound) else r.counters.highestVoteRound)
            && o.replica.counters.highestQCRound ==
                 (if allowed then MaxRound(QCRound(p.block.qc), r.counters.highestQCRound)
                  else r.counters.highestQCRound)
  {
    hide Absorb;
    hide Insert;
    hide MayVote;
    hide VoteInfoHash;
    hide CommitStateCandidate;
    AbsorbDoes(cfg, r, p.block.qc, p.highCommitQc, p.lastRoundTc);
    InsertDoes(Absorb(cfg, r, p.block.qc, p.highCommitQc, p.lastRoundTc), p.block);
  }

  /** The vote counter goes to the round as soon as the rules allow a timeout, signed or not. */
  lemma TimeoutsMoveCounters(cfg: Config, k: Keyring, r: Replica, sig: Option<Blob>)
    ensures var o, round := LocalTimeoutRound(cfg, k, r, sig), r.pacemaker.currentRound;
            && o.replica.counters.highestQCRound == r.counters.highestQCRound
            && o.replica.counters.highestVoteRound ==
                 (if MayTimeout(k, r.counters, round, r.tree.highQC, r.pacemaker.lastRoundTC)
                  then MaxRound(round, r.counters.highestVoteRound) else r.counters.highestVoteRound)
  {
    hide MayTimeout;
  }

  /** A replica that gives up its round sends a timeout for it if and only if the timeout can be signed and
      no certificate of that round or later is known. */
  lemma GivesUpAloud(cfg: Config, k: Keyring, r: Replica, sig: Option<Blob>)
    requires ReplicaInv(k, r) && InStep(r)
    ensures (exists t :: Timeout(t) in LocalTimeoutRound(cfg, k, r, sig).sent) <==>
              sig.Some? && r.tree.highQC.voteInfo.round < r.pacemaker.currentRound
  {
    hide VerifyQC;
    hide VerifyTC;
    hide LedgerInv;
    hide CommitCertified;
    hide VotesInv;
    var o := LocalTimeoutRound(cfg, k, r, sig);
    if o.sent != [] { assert Timeout(o.sent[0].timeout) in o.sent; }
  }

  /** In every run, a local timeout that is not stale makes the replica broadcast a timeout for its round,
      unless signing fails or it already knows a certificate of that round or later. */
  lemma LocalTimeoutsAreAloud(net: Network, states: seq<SystemState>, actions: seq<Action>, i: nat)
    requires ValidNetwork(net) && IsRun(net, states, actions) && |actions| < MAX_U64
    requires i < |actions| && actions[i].Handle?
    requires actions[i].event == LocalTimeoutEvent(states[i].replicas[actions[i].who].pacemaker.epoch)
    ensures var r := states[i].replicas[actions[i].who];
            (exists t :: Timeout(t) in OutcomeOf(net, states[i], actions[i]).sent) <==>
              actions[i].inputs.timeoutSig.Some? && r.tree.highQC.voteInfo.round < r.pacemaker.currentRound
  {
    hide ReplicaInv;
    hide WorldInv;
    hide Covers;
    hide InStep;
    hide LocalTimeoutRound;
    var a, s := actions[i], states[i];
    RunInv(net, states, actions, i);
    CountersKeepUp(net, states, actions, i, a.who);
    GivesUpAloud(net.configs[a.who], s.world.keys, s.replicas[a.who], a.inputs.timeoutSig);
  }
}
