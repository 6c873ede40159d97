// How high rounds can get: each action of a run raises the highest round signed for by at most one,
// so a run has to be 2^64-1 actions long before any message names the last uint64.
module Ceiling {
  import opened Wire
  import opened Hashing
  import opened Quorums
  import opened Verification
  import opened Chains
  import opened LedgerModel
  import opened SafetyRules
  import opened Agreement
  import opened TreeModel
  import P = PacemakerModel
  import opened ReplicaModel
  import opened ReplicaInvariant
  import opened System

  predicate TcBelowMax(tc: Option<TimeoutCert>) { tc.Some? ==> tc.value.round < MAX_U64 }

  /** No certificate or timeout in the message is for the last uint64, whose successor wraps to 0. */
  predicate BelowMax(e: Event) {
    match e
    case ProposalEvent(p) =>
      QCRound(p.block.qc) < MAX_U64 && QCRound(p.highCommitQc) < MAX_U64 && TcBelowMax(p.lastRoundTc)
    case TimeoutEvent(m) =>
      && QCRound(m.tmoInfo.highQc) < MAX_U64 && QCRound(m.highCommitQc) < MAX_U64 && TcBelowMax(m.lastRoundTc)
      && m.tmoInfo.round < MAX_U64
    case _ => true
  }

  ghost predicate StatementUpTo(s: Statement, n: nat) {
    (s.Voted? ==> s.block.round <= n) && (s.TimedOut? ==> s.round <= n)
  }

  ghost predicate AllUpTo(ss: seq<Statement>, n: nat) { forall s :: s in ss ==> StatementUpTo(s, n) }

  /** No correct replica has voted or timed out above round `n`. */
  ghost predicate SignedUpTo(w: World, n: nat) { forall r :: r in w.logs ==> AllUpTo(w.logs[r], n) }

  /** Certificates need a correct signer, so they are no higher. */
  lemma QCUpTo(execute: Execution, w: World, qc: QuorumCert, n: nat)
    requires WorldInv(execute, w) && SignedUpTo(w, n) && VerifyQC(w.keys, qc)
    ensures qc.voteInfo.round <= n
  {
    hide WorldInv;
    hide VerifyQC;
    if qc.voteInfo.round > 0 {
      var r, s := CorrectVoter(execute, w, qc);
      assert StatementUpTo(s, n);
    }
  }

  lemma TCUpTo(execute: Execution, w: World, tc: TimeoutCert, n: nat)
    requires WorldInv(execute, w) && SignedUpTo(w, n) && VerifyTC(w.keys, Some(tc))
    ensures tc.round <= n
  {
    hide VerifyTC;
    assert w.keys.Valid();
    TCSigners(w.keys, tc);
    var r := QuorumHasCorrect(w.keys.validators, w.keys.faulty, Signers(VoteSigs(tc.votes)));
    hide WorldInv;
    var i :| 0 <= i < |tc.votes| && tc.votes[i].sig.signer == r;
    var s := TimeoutBehind(execute, w, tc, i);
    assert StatementUpTo(s, n);
  }

  // ---------------------------------------------------------------------------- one step

  lemma CertificateRises(cfg: Config, w: World, r: Replica, qc: Option<QuorumCert>, n: nat)
    requires WorldInv(cfg.execute, w) && SignedUpTo(w, n) && VerifyCommitQC(w.keys, qc)
    requires r.pacemaker.currentRound <= n + 1 <= MAX_U64
    ensures ProcessCertificateQC(cfg, r, qc).0.pacemaker.currentRound <= n + 1
  {
    hide WorldInv;
    hide SignedUpTo;
    hide VerifyQC;
    hide ProcessQC;
    hide Commit;
    hide UpdateLeaders;
    if qc.Some? { QCUpTo(cfg.execute, w, qc.value, n); }
  }

  lemma AbsorbRises(cfg: Config, w: World, r: Replica, qc: Option<QuorumCert>, commitQC: Option<QuorumCert>,
                    tc: Option<TimeoutCert>, n: nat)
    requires WorldInv(cfg.execute, w) && SignedUpTo(w, n)
    requires VerifyCommitQC(w.keys, qc) && VerifyCommitQC(w.keys, commitQC) && VerifyTC(w.keys, tc)
    requires r.pacemaker.currentRound <= n + 1 <= MAX_U64
    ensures Absorb(cfg, r, qc, commitQC, tc).pacemaker.currentRound <= n + 1
    ensures tc.Some? ==> tc.value.round <= n
  {
    hide WorldInv;
    hide SignedUpTo;
    hide VerifyQC;
    hide VerifyTC;
    hide ProcessCertificateQC;
    CertificateRises(cfg, w, r, qc, n);
    CertificateRises(cfg, w, ProcessCertificateQC(cfg, r, qc).0, commitQC, n);
    if tc.Some? { TCUpTo(cfg.execute, w, tc.value, n); }
  }

  /** What one step may do: sign one round higher, and enter the round after that. */
  ghost predicate RisesOnce(o: Outcome, n: nat) {
    AllUpTo(o.signed, n + 1) && o.replica.pacemaker.currentRound <= n + 2
  }

  lemma ProposalRises(cfg: Config, w: World, r: Replica, p: ProposalMsg, inputs: Inputs, n: nat)
    requires WorldInv(cfg.execute, w) && SignedUpTo(w, n) && VerifyProposal(w.keys, p)
    requires r.pacemaker.currentRound <= n + 1 <= MAX_U64
    ensures RisesOnce(HandleProposal(cfg, w.keys, r, p, inputs), n)
  {
    hide WorldInv;
    hide SignedUpTo;
    hide VerifyQC;
    hide VerifyTC;
    hide BlockId;
    hide Absorb;
    hide BallotFor;
    hide Speculate;
    AbsorbRises(cfg, w, r, p.block.qc, p.highCommitQc, p.lastRoundTc, n);
  }

  lemma LocalTimeoutRises(cfg: Config, k: Keyring, r: Replica, sig: Option<Blob>, n: nat)
    requires r.pacemaker.currentRound <= n + 1
    ensures var o := LocalTimeoutRound(cfg, k, r, sig);
            AllUpTo(o.signed, n + 1) && o.replica.pacemaker.currentRound == r.pacemaker.currentRound
  {
    hide MayTimeout;
  }

  lemma RemoteTimeoutRises(cfg: Config, k: Keyring, r: Replica, info: TimeoutInfo, sig: Option<Blob>, n: nat)
    requires r.pacemaker.currentRound <= n + 1
    ensures var (o, tc) := ProcessRemoteTimeout(cfg, k, r, info, sig);
            && AllUpTo(o.signed, n + 1) && o.replica.pacemaker.currentRound == r.pacemaker.currentRound
            && (tc.Some? ==> tc.value.round == info.round)
  {
    hide LocalTimeoutRound;
    if !P.Ignored(r.pacemaker, info) {
      LocalTimeoutRises(cfg, k, r.(pacemaker := P.Stop(P.Collect(r.pacemaker, info))), sig, n);
    }
  }

  lemma NewRoundRises(cfg: Config, r: Replica, tc: Option<TimeoutCert>, inputs: Inputs, n: nat)
    ensures var o := ProcessNewRound(cfg, r, tc, inputs); o.replica == r && AllUpTo(o.signed, n)
  {
    hide BlockId;
  }

  lemma TimeoutRises(cfg: Config, w: World, r: Replica, m: TimeoutMsg, inputs: Inputs, n: nat)
    requires WorldInv(cfg.execute, w) && SignedUpTo(w, n) && VerifyTimeout(w.keys, m)
    requires r.pacemaker.currentRound <= n + 1 && n + 2 <= MAX_U64
    ensures RisesOnce(HandleTimeout(cfg, w.keys, r, m, inputs), n)
    ensures m.tmoInfo.round <= n + 1
  {
    hide WorldInv;
    hide SignedUpTo;
    hide VerifyQC;
    hide VerifyTC;
    hide TimeoutDigest;
    hide Absorb;
    hide ProcessRemoteTimeout;
    hide ProcessNewRound;
    AbsorbRises(cfg, w, r, m.tmoInfo.highQc, m.highCommitQc, m.lastRoundTc, n);
    QCUpTo(cfg.execute, w, m.tmoInfo.highQc.value, n);
    var r1 := Absorb(cfg, r, m.tmoInfo.highQc, m.highCommitQc, m.lastRoundTc);
    RemoteTimeoutRises(cfg, w.keys, r1, m.tmoInfo, inputs.timeoutSig, n);
    var (o, tc) := ProcessRemoteTimeout(cfg, w.keys, r1, m.tmoInfo, inputs.timeoutSig);
    if tc.Some? { NewRoundRises(cfg, AdvanceRoundTC(o.replica, tc), tc, inputs, n + 1); }
  }

  lemma AggregatedKeeps(w: World, r: Id, sigs: seq<Signature>, n: nat)
    requires r in w.logs && SignedUpTo(w, n)
    ensures SignedUpTo(RecordAll(w, r, [Aggregated(sigs)]), n)
  { }

  lemma VoteRises(cfg: Config, w: World, r: Replica, m: VoteMsg, inputs: Inputs, n: nat)
    requires Healthy(cfg, w, r) && SignedUpTo(w, n) && VerifyVote(w.keys, m)
    requires r.pacemaker.currentRound <= n + 1 <= MAX_U64
    ensures RisesOnce(HandleVote(cfg, r, m, inputs), n)
  {
    hide ReplicaInv;
    hide WorldInv;
    hide Covers;
    hide SignedUpTo;
    hide VerifyQC;
    hide Disciplined;
    hide ProcessVote;
    hide ProcessNewRound;
    hide ProcessTreeQC;
    hide ProcessCertificateQC;
    ProcessTreeQCInv(w.keys, r, m.highCommitQc);
    var r1 := ProcessTreeQC(r, m.highCommitQc);
    TreeQCKeepsCounters(r, m.highCommitQc);
    var (tree, qc) := ProcessVote(cfg.self, cfg.Quorum(), r1.tree, m, inputs.authorSig);
    var r2 := r1.(tree := tree);
    if qc.Some? && !OutOfWindow(r.pacemaker.currentRound, m.voteInfo.round) {
      var s := Aggregated(qc.value.signatures);
      var w1 := RecordAll(w, cfg.self, [s]);
      CompletedCertificate(cfg, w, r1, m, inputs.authorSig);
      TreeVoteKeeps(cfg, w.keys, r1, m, inputs.authorSig);
      MembersAreValid(cfg, w);
      OtherIsSafe(r2.counters, s, w.logs[cfg.self]);
      Signs(cfg, w, r2, r2, s);
      AggregatedKeeps(w, cfg.self, qc.value.signatures, n);
      CertificateRises(cfg, w1, r2, qc, n);
      NewRoundRises(cfg, ProcessCertificateQC(cfg, r2, qc).0, None, inputs, n + 1);
    }
  }

  lemma StepRises(cfg: Config, w: World, r: Replica, e: Event, inputs: Inputs, n: nat)
    requires Healthy(cfg, w, r) && SignedUpTo(w, n) && VerifiedEvent(w.keys, e)
    requires r.pacemaker.currentRound <= n + 1 && n + 2 <= MAX_U64
    ensures RisesOnce(Step(cfg, w.keys, r, e, inputs), n)
    ensures BelowMax(e)
  {
    hide ReplicaInv;
    hide WorldInv;
    hide Covers;
    hide SignedUpTo;
    hide BlockId;
    hide VerifyQC;
    hide VerifyTC;
    hide VerifyVote;
    hide HandleProposal;
    hide HandleTimeout;
    hide HandleVote;
    hide LocalTimeoutRound;
    hide Speculate;
    match e
    case ProposalEvent(p) =>
      ProposalRises(cfg, w, r, p, inputs, n);
      QCUpTo(cfg.execute, w, p.block.qc.value, n);
      if p.highCommitQc.Some? { QCUpTo(cfg.execute, w, p.highCommitQc.value, n); }
      if p.lastRoundTc.Some? { TCUpTo(cfg.execute, w, p.lastRoundTc.value, n); }
    case VoteEvent(m) => VoteRises(cfg, w, r, m, inputs, n);
    case TimeoutEvent(m) =>
      TimeoutRises(cfg, w, r, m, inputs, n);
      QCUpTo(cfg.execute, w, m.tmoInfo.highQc.value, n);
      if m.highCommitQc.Some? { QCUpTo(cfg.execute, w, m.highCommitQc.value, n); }
      if m.lastRoundTc.Some? { TCUpTo(cfg.execute, w, m.lastRoundTc.value, n); }
    case LocalTimeoutEvent(_) => LocalTimeoutRises(cfg, w.keys, r, inputs.timeoutSig, n);
    case BlockEvent(_) =>
    case BlockRequestEvent(_) =>
  }

  // -------------------------------------------------------------------------------- runs

  ghost predicate RoundsUpTo(s: SystemState, n: nat) {
    && SignedUpTo(s.world, n)
    && forall r :: r in s.replicas ==> s.replicas[r].pacemaker.currentRound <= n + 1
  }

  lemma NextRises(net: Network, s: SystemState, a: Action, n: nat)
    requires ValidNetwork(net) && SystemInv(net, s) && Enabled(net, s, a) && RoundsUpTo(s, n) && n + 2 <= MAX_U64
    ensures RoundsUpTo(Next(net, s, a), n + 1)
    ensures a.Handle? ==> BelowMax(a.event)
  {
    hide ReplicaInv;
    hide WorldInv;
    hide Covers;
    hide VerifiedEvent;
    hide BelowMax;
    hide Step;
    hide Start;
    var cfg := net.configs[a.who];
    assert Member(cfg, s.world);
    match a
    case StartUp(_, inputs) => StartRises(cfg, inputs, n);
    case Handle(r, e, inputs) => StepRises(cfg, s.world, s.replicas[r], e, inputs, n);
  }

  lemma StartRises(cfg: Config, inputs: Inputs, n: nat)
    ensures RisesOnce(Start(cfg, inputs), n)
  {
    hide ProcessNewRound;
    NewRoundRises(cfg, NEW_REPLICA.(pacemaker := P.AdvanceQC(P.NEW_PACEMAKER, GENESIS_QC).0), None, inputs, n + 1);
  }

  /** After i actions no correct replica has signed for a round above i, and so no verified event of
      a run shorter than 2^64-1 names the last round. */
  lemma {:induction false} RoundsRiseSlowly(net: Network, states: seq<SystemState>, actions: seq<Action>, i: nat)
    requires ValidNetwork(net) && IsRun(net, states, actions) && |actions| < MAX_U64 && i < |states|
    ensures RoundsUpTo(states[i], i)
    ensures i < |actions| && actions[i].Handle? ==> BelowMax(actions[i].event)
  {
    hide SystemInv;
    hide RoundsUpTo;
    hide BelowMax;
    hide Next;
    if i == 0 {
      InitUpTo(net);
    } else {
      RoundsRiseSlowly(net, states, actions, i - 1);
      RunInv(net, states, actions, i - 1);
      NextRises(net, states[i - 1], actions[i - 1], i - 1);
    }
    if i < |actions| {
      RunInv(net, states, actions, i);
      NextRises(net, states[i], actions[i], i);
    }
  }

  lemma InitUpTo(net: Network)
    ensures RoundsUpTo(Init(net), 0)
  { }
}
