// Round discipline over every run shorter than 2^64-1 actions: no step lowers a replica's round, its
// proposals and votes are in strictly increasing rounds, it holds timeouts for the round it is in and
// no other, and for each round it gives up once and completes one TC at the most.
module Rounds {
  import opened Wire
  import opened Hashing
  import opened Quorums
  import opened Verification
  import opened LedgerModel
  import opened SafetyRules
  import opened Agreement
  import opened TreeModel
  import P = PacemakerModel
  import opened ReplicaModel
  import opened ReplicaInvariant
  import opened System
  import opened Ceiling

  // ------------------------------------------------------------------ how rounds evolve

  /** Rounds do not go back, and within a round no counted timeout is forgotten. */
  ghost predicate Evolves(p: P.Pacemaker, q: P.Pacemaker) {
    && q.currentRound >= p.currentRound
    && (q.currentRound == p.currentRound ==>
          forall x :: x in p.timeouts && x >= p.currentRound ==>
            x in q.timeouts && p.timeouts[x].senders <= q.timeouts[x].senders)
  }

  /** At most one live bucket: the current round's. */
  ghost predicate BucketsCurrent(p: P.Pacemaker) { forall x :: x in p.timeouts ==> x == p.currentRound }

  lemma EvolvesTransitive(p: P.Pacemaker, q: P.Pacemaker, s: P.Pacemaker)
    requires Evolves(p, q) && Evolves(q, s)
    ensures Evolves(p, s)
  { }

  lemma CertificateEvolves(cfg: Config, r: Replica, qc: Option<QuorumCert>)
    requires QCRound(qc) < MAX_U64 && BucketsCurrent(r.pacemaker)
    ensures var (r', moved) := ProcessCertificateQC(cfg, r, qc);
            && Evolves(r.pacemaker, r'.pacemaker) && BucketsCurrent(r'.pacemaker)
            && (qc.Some? ==> r'.pacemaker.currentRound > qc.value.voteInfo.round)
            && (moved ==> r'.pacemaker.currentRound > r.pacemaker.currentRound)
  {
    hide ProcessQC;
    hide Commit;
    hide UpdateLeaders;
  }

  lemma TcEvolves(r: Replica, tc: Option<TimeoutCert>)
    requires TcBelowMax(tc) && BucketsCurrent(r.pacemaker)
    ensures var r' := AdvanceRoundTC(r, tc);
            && Evolves(r.pacemaker, r'.pacemaker) && BucketsCurrent(r'.pacemaker)
            && (tc.Some? ==> r'.pacemaker.currentRound > tc.value.round)
  { }

  /** Round numbers are uint64: a certificate for the current round or later moves the replica on
      exactly when its round is not the largest one, whose successor is round 0. */
  lemma AdvancesUnlessLargest(p: P.Pacemaker, qc: QuorumCert, tc: TimeoutCert)
    requires qc.voteInfo.round >= p.currentRound && tc.round >= p.currentRound
    ensures P.AdvanceQC(p, qc).0.currentRound > p.currentRound <==> qc.voteInfo.round < MAX_U64
    ensures P.AdvanceTC(p, Some(tc)).0.currentRound > p.currentRound <==> tc.round < MAX_U64
  { }

  /** Reading a well-formed message's certificates brings the replica to the message's round. */
  lemma AbsorbEvolves(cfg: Config, r: Replica, qc: Option<QuorumCert>, commitQC: Option<QuorumCert>,
                      tc: Option<TimeoutCert>, round: Round)
    requires QCRound(qc) < MAX_U64 && QCRound(commitQC) < MAX_U64 && TcBelowMax(tc) && BucketsCurrent(r.pacemaker)
    requires qc.Some? && WellFormed(round, QCRound(qc), tc)
    ensures var r' := Absorb(cfg, r, qc, commitQC, tc);
            Evolves(r.pacemaker, r'.pacemaker) && BucketsCurrent(r'.pacemaker) && r'.pacemaker.currentRound >= round
  {
    hide ProcessCertificateQC;
    hide Evolves;
    hide BucketsCurrent;
    CertificateEvolves(cfg, r, qc);
    var r1 := ProcessCertificateQC(cfg, r, qc).0;
    CertificateEvolves(cfg, r1, commitQC);
    var r2 := ProcessCertificateQC(cfg, r1, commitQC).0;
    TcEvolves(r2, tc);
    var r3 := AdvanceRoundTC(r2, tc);
    EvolvesTransitive(r.pacemaker, r1.pacemaker, r2.pacemaker);
    EvolvesTransitive(r.pacemaker, r2.pacemaker, r3.pacemaker);
    EvolvesKeepsRound(r1.pacemaker, r2.pacemaker);
    EvolvesKeepsRound(r2.pacemaker, r3.pacemaker);
  }

  lemma EvolvesKeepsRound(p: P.Pacemaker, q: P.Pacemaker)
    requires Evolves(p, q)
    ensures q.currentRound >= p.currentRound
  { }

  lemma LocalTimeoutEvolves(cfg: Config, k: Keyring, r: Replica, sig: Option<Blob>)
    requires BucketsCurrent(r.pacemaker)
    ensures var o := LocalTimeoutRound(cfg, k, r, sig);
            && Evolves(r.pacemaker, o.replica.pacemaker) && BucketsCurrent(o.replica.pacemaker)
            && o.replica.pacemaker.currentRound == r.pacemaker.currentRound
            && (forall s :: s in o.signed ==> !s.Proposed?)
            && o.replica.pacemaker.timeouts == r.pacemaker.timeouts
  {
    hide MayTimeout;
  }

  /** A timeout accumulates for exactly the current round. */
  lemma RemoteTimeoutEvolves(cfg: Config, k: Keyring, r: Replica, info: TimeoutInfo, sig: Option<Blob>)
    requires BucketsCurrent(r.pacemaker) && r.pacemaker.currentRound >= info.round
    ensures var (o, tc) := ProcessRemoteTimeout(cfg, k, r, info, sig);
            && Evolves(r.pacemaker, o.replica.pacemaker) && BucketsCurrent(o.replica.pacemaker)
            && o.replica.pacemaker.currentRound == r.pacemaker.currentRound
            && (forall s :: s in o.signed ==> !s.Proposed?)
            && (!P.Ignored(r.pacemaker, info) ==>
                  && info.round == r.pacemaker.currentRound && info.round in o.replica.pacemaker.timeouts
                  && o.replica.pacemaker.timeouts[info.round] == P.BucketWith(r.pacemaker, info))
            && (tc.Some? ==> tc.value.round == info.round == o.replica.pacemaker.currentRound)
  {
    hide LocalTimeoutRound;
    if !P.Ignored(r.pacemaker, info) {
      var r1 := r.(pacemaker := P.Stop(P.Collect(r.pacemaker, info)));
      assert Evolves(r.pacemaker, r1.pacemaker) && BucketsCurrent(r1.pacemaker);
      LocalTimeoutEvolves(cfg, k, r1, sig);
      EvolvesTransitive(r.pacemaker, r1.pacemaker, LocalTimeoutRound(cfg, k, r1, sig).replica.pacemaker);
    }
  }

  // --------------------------------------------------------------------------- one step

  /** What a step does to the round, and what it may propose. */
  ghost predicate RoundStep(r: Replica, o: Outcome) {
    && Evolves(r.pacemaker, o.replica.pacemaker) && BucketsCurrent(o.replica.pacemaker)
    && (forall s :: s in o.signed && s.Proposed? ==>
          s.block.round == o.replica.pacemaker.currentRound && s.block.round > r.pacemaker.currentRound)
    && (forall i, j :: 0 <= i < j < |o.signed| ==> !(o.signed[i].Proposed? && o.signed[j].Proposed?))
  }

  lemma NewRoundProposes(cfg: Config, r: Replica, tc: Option<TimeoutCert>, inputs: Inputs)
    ensures var o := ProcessNewRound(cfg, r, tc, inputs);
            && o.replica == r && |o.signed| <= 1
            && forall s :: s in o.signed ==> s.Proposed? && s.block.round == r.pacemaker.currentRound
  {
    hide BlockId;
  }

  lemma ProposalRounds(cfg: Config, k: Keyring, r: Replica, p: ProposalMsg, inputs: Inputs)
    requires BucketsCurrent(r.pacemaker) && VerifyProposal(k, p) && BelowMax(ProposalEvent(p))
    ensures var o := HandleProposal(cfg, k, r, p, inputs);
            RoundStep(r, o) && o.replica.pacemaker.currentRound >= p.block.round
  {
    hide BlockId;
    hide VerifyQC;
    hide VerifyTC;
    hide Absorb;
    hide BallotFor;
    hide Speculate;
    AbsorbEvolves(cfg, r, p.block.qc, p.highCommitQc, p.lastRoundTc, p.block.round);
  }

  lemma TimeoutRounds(cfg: Config, k: Keyring, r: Replica, m: TimeoutMsg, inputs: Inputs)
    requires BucketsCurrent(r.pacemaker) && VerifyTimeout(k, m) && BelowMax(TimeoutEvent(m))
    ensures var o := HandleTimeout(cfg, k, r, m, inputs);
            RoundStep(r, o) && o.replica.pacemaker.currentRound >= m.tmoInfo.round
  {
    hide VerifyQC;
    hide VerifyTC;
    hide TimeoutDigest;
    hide Absorb;
    hide ProcessRemoteTimeout;
    hide ProcessNewRound;
    hide BucketsCurrent;
    AbsorbEvolves(cfg, r, m.tmoInfo.highQc, m.highCommitQc, m.lastRoundTc, m.tmoInfo.round);
    var r1 := Absorb(cfg, r, m.tmoInfo.highQc, m.highCommitQc, m.lastRoundTc);
    RemoteTimeoutEvolves(cfg, k, r1, m.tmoInfo, inputs.timeoutSig);
    var (o, tc) := ProcessRemoteTimeout(cfg, k, r1, m.tmoInfo, inputs.timeoutSig);
    EvolvesTransitive(r.pacemaker, r1.pacemaker, o.replica.pacemaker);
    if tc.Some? {
      TcEvolves(o.replica, tc);
      var r2 := AdvanceRoundTC(o.replica, tc);
      EvolvesTransitive(r.pacemaker, o.replica.pacemaker, r2.pacemaker);
      NewRoundProposes(cfg, r2, tc, inputs);
    }
  }

  lemma CompletedRound(cfg: Config, k: Keyring, t: Tree, m: VoteMsg, sig: Option<Blob>)
    requires TreeInv(k, t) && VerifyVote(k, m) && ProcessVote(cfg.self, cfg.Quorum(), t, m, sig).1.Some?
    ensures ProcessVote(cfg.self, cfg.Quorum(), t, m, sig).1.value.voteInfo == m.voteInfo
  {
    hide VerifyVote;
    hide VerifyQC;
    hide VotesInv;
    hide Canonical;
    BucketWithInv(k, t, m);
  }

  lemma VoteRounds(cfg: Config, k: Keyring, r: Replica, m: VoteMsg, inputs: Inputs)
    requires ReplicaInv(k, r) && BucketsCurrent(r.pacemaker) && VerifyVote(k, m) && r.pacemaker.currentRound >= 1
    ensures RoundStep(r, HandleVote(cfg, r, m, inputs))
  {
    hide VerifyQC;
    hide LedgerCommitDigest;
    hide VoteInfoHash;
    hide ProcessTreeQC;
    hide ProcessVote;
    hide ProcessCertificateQC;
    hide ProcessNewRound;
    hide BucketsCurrent;
    hide LedgerInv;
    hide CommitCertified;
    hide TreeInv;
    ProcessTreeQCInv(k, r, m.highCommitQc);
    TreeQCKeepsCounters(r, m.highCommitQc);
    var r1 := ProcessTreeQC(r, m.highCommitQc);
    var (tree, qc) := ProcessVote(cfg.self, cfg.Quorum(), r1.tree, m, inputs.authorSig);
    var r2 := r1.(tree := tree);
    EvolvesReflexive(r.pacemaker);
    if qc.Some? && !OutOfWindow(r.pacemaker.currentRound, m.voteInfo.round) {
      CompletedRound(cfg, k, r1.tree, m, inputs.authorSig);
      CertificateEvolves(cfg, r2, qc);
      NewRoundProposes(cfg, ProcessCertificateQC(cfg, r2, qc).0, None, inputs);
    }
  }

  lemma EvolvesReflexive(p: P.Pacemaker)
    ensures Evolves(p, p)
  { }

  lemma StepRounds(cfg: Config, k: Keyring, r: Replica, e: Event, inputs: Inputs)
    requires ReplicaInv(k, r) && BucketsCurrent(r.pacemaker) && VerifiedEvent(k, e) && BelowMax(e)
    requires r.pacemaker.currentRound >= 1
    ensures RoundStep(r, Step(cfg, k, r, e, inputs))
  {
    hide ReplicaInv;
    hide BlockId;
    hide VerifyProposal;
    hide VerifyVote;
    hide VerifyTimeout;
    hide HandleProposal;
    hide HandleTimeout;
    hide HandleVote;
    hide LocalTimeoutRound;
    hide Speculate;
    EvolvesReflexive(r.pacemaker);
    match e
    case ProposalEvent(p) => ProposalRounds(cfg, k, r, p, inputs);
    case VoteEvent(m) => VoteRounds(cfg, k, r, m, inputs);
    case TimeoutEvent(m) => TimeoutRounds(cfg, k, r, m, inputs);
    case LocalTimeoutEvent(_) => LocalTimeoutEvolves(cfg, k, r, inputs.timeoutSig);
    case BlockEvent(b) =>
    case BlockRequestEvent(_) =>
  }

  // ---------------------------------------------------------------- thresholds fire once

  /** The timeout event brings its round's count to exactly `n`. */
  ghost predicate CountReaches(cfg: Config, r: Replica, e: Event, n: nat) {
    e.TimeoutEvent? &&
    var m := e.timeout;
    var p := Absorb(cfg, r, m.tmoInfo.highQc, m.highCommitQc, m.lastRoundTc).pacemaker;
    !P.Ignored(p, m.tmoInfo) && |P.BucketWith(p, m.tmoInfo).senders| == n
  }

  /** What handling a timeout comes to once its certificates have been read. */
  ghost function Counted(cfg: Config, k: Keyring, r: Replica, m: TimeoutMsg, sig: Option<Blob>)
    : (Outcome, Option<TimeoutCert>)
  {
    ProcessRemoteTimeout(cfg, k, Absorb(cfg, r, m.tmoInfo.highQc, m.highCommitQc, m.lastRoundTc), m.tmoInfo, sig)
  }

  /** Handling the timeout completes a certificate. */
  ghost predicate FormsTC(cfg: Config, k: Keyring, r: Replica, m: TimeoutMsg, sig: Option<Blob>) {
    Counted(cfg, k, r, m, sig).1.Some?
  }

  /** Handling the timeout makes the replica give up its own round: the timer is armed anew. */
  ghost predicate Amplifies(cfg: Config, k: Keyring, r: Replica, m: TimeoutMsg, sig: Option<Blob>) {
    Counted(cfg, k, r, m, sig).0.replica.pacemaker.epoch
    != Absorb(cfg, r, m.tmoInfo.highQc, m.highCommitQc, m.lastRoundTc).pacemaker.epoch
  }

  lemma LocalTimeoutOpensEpoch(cfg: Config, k: Keyring, r: Replica, sig: Option<Blob>)
    ensures LocalTimeoutRound(cfg, k, r, sig).replica.pacemaker.epoch > r.pacemaker.epoch
  {
    hide MayTimeout;
  }

  lemma CountedThresholds(cfg: Config, k: Keyring, r: Replica, info: TimeoutInfo, sig: Option<Blob>)
    ensures var (o, tc) := ProcessRemoteTimeout(cfg, k, r, info, sig);
            var counted, n := !P.Ignored(r.pacemaker, info), |P.BucketWith(r.pacemaker, info).senders|;
            && (tc.Some? <==> counted && n == cfg.Quorum())
            && (o.replica.pacemaker.epoch != r.pacemaker.epoch <==> counted && n == cfg.Tolerated() + 1)
            && (o.replica.pacemaker.epoch == r.pacemaker.epoch ==> o.sent == [] && o.signed == [])
  {
    hide LocalTimeoutRound;
    hide P.BucketWith;
    hide P.TimeoutCertOf;
    LocalTimeoutOpensEpoch(cfg, k, r.(pacemaker := P.Stop(P.Collect(r.pacemaker, info))), sig);
  }

  /** A certificate is returned exactly at the quorum and the replica gives up exactly at f+1, which is
      also the only time it signs or sends a timeout of its own. */
  lemma ThresholdsAreCounts(cfg: Config, k: Keyring, r: Replica, m: TimeoutMsg, sig: Option<Blob>)
    ensures FormsTC(cfg, k, r, m, sig) <==> CountReaches(cfg, r, TimeoutEvent(m), QuorumSize(|cfg.validators|))
    ensures Amplifies(cfg, k, r, m, sig) <==> CountReaches(cfg, r, TimeoutEvent(m), Faulty(|cfg.validators|) + 1)
    ensures !Amplifies(cfg, k, r, m, sig) ==>
              Counted(cfg, k, r, m, sig).0.sent == [] && Counted(cfg, k, r, m, sig).0.signed == []
  {
    hide Absorb;
    hide ProcessRemoteTimeout;
    hide P.BucketWith;
    hide P.Ignored;
    CountedThresholds(cfg, k, Absorb(cfg, r, m.tmoInfo.highQc, m.highCommitQc, m.lastRoundTc), m.tmoInfo, sig);
  }

  /** The round is over, or `n` senders have been counted in it. */
  ghost predicate Passed(p: P.Pacemaker, round: Round, n: nat) {
    round < p.currentRound || (round in p.timeouts && |p.timeouts[round].senders| >= n)
  }

  lemma PassedStays(p: P.Pacemaker, q: P.Pacemaker, round: Round, n: nat)
    requires BucketsCurrent(p) && Evolves(p, q) && Passed(p, round, n)
    ensures Passed(q, round, n)
  {
    if round >= q.currentRound { SubsetSize(p.timeouts[round].senders, q.timeouts[round].senders); }
  }

  lemma CollectGrows(p: P.Pacemaker, info: TimeoutInfo)
    requires !P.Ignored(p, info)
    ensures info.round in p.timeouts ==> |P.BucketWith(p, info).senders| == |p.timeouts[info.round].senders| + 1
  { }

  /** Reaching a threshold needs a round that has not passed it, and passes it. */
  lemma ReachesIsFresh(cfg: Config, k: Keyring, r: Replica, e: Event, inputs: Inputs, n: nat)
    requires BucketsCurrent(r.pacemaker) && VerifiedEvent(k, e) && BelowMax(e) && CountReaches(cfg, r, e, n)
    ensures !Passed(r.pacemaker, e.timeout.tmoInfo.round, n)
    ensures Passed(Step(cfg, k, r, e, inputs).replica.pacemaker, e.timeout.tmoInfo.round, n)
  {
    hide VerifyQC;
    hide VerifyTC;
    hide TimeoutDigest;
    hide Absorb;
    hide ProcessRemoteTimeout;
    hide ProcessNewRound;
    hide P.AdvanceTC;
    var m := e.timeout;
    AbsorbEvolves(cfg, r, m.tmoInfo.highQc, m.highCommitQc, m.lastRoundTc, m.tmoInfo.round);
    var r1 := Absorb(cfg, r, m.tmoInfo.highQc, m.highCommitQc, m.lastRoundTc);
    CollectGrows(r1.pacemaker, m.tmoInfo);
    if Passed(r.pacemaker, m.tmoInfo.round, n) { PassedStays(r.pacemaker, r1.pacemaker, m.tmoInfo.round, n); }
    RemoteTimeoutEvolves(cfg, k, r1, m.tmoInfo, inputs.timeoutSig);
    var (o, tc) := ProcessRemoteTimeout(cfg, k, r1, m.tmoInfo, inputs.timeoutSig);
    if tc.Some? {
      TcEvolves(o.replica, tc);
      NewRoundProposes(cfg, AdvanceRoundTC(o.replica, tc), tc, inputs);
    }
  }

  // -------------------------------------------------------------------------------- runs

  /** A replica's own proposals are in strictly increasing rounds. */
  ghost predicate ProposalsAscend(log: seq<Statement>) {
    forall i, j :: 0 <= i < j < |log| && log[i].Proposed? && log[j].Proposed? ==>
      log[i].block.round < log[j].block.round
  }

  ghost predicate ProposedUpTo(log: seq<Statement>, round: Round) {
    forall s :: s in log && s.Proposed? ==> s.block.round <= round
  }

  ghost predicate RoundInv(p: P.Pacemaker, log: seq<Statement>) {
    p.currentRound >= 1 && BucketsCurrent(p) && ProposalsAscend(log) && ProposedUpTo(log, p.currentRound)
  }

  lemma RoundInvStep(r: Replica, o: Outcome, log: seq<Statement>)
    requires RoundInv(r.pacemaker, log) && RoundStep(r, o)
    ensures RoundInv(o.replica.pacemaker, log + o.signed)
  {
    var log' := log + o.signed;
    forall i, j | 0 <= i < j < |log'| && log'[i].Proposed? && log'[j].Proposed?
      ensures log'[i].block.round < log'[j].block.round
    {
      if j >= |log| {
        assert log'[j] in o.signed;
        if i < |log| { assert log'[i] in log; }
      }
    }
  }

  lemma NextRoundInv(net: Network, s: SystemState, a: Action, r: Id)
    requires ValidNetwork(net) && SystemInv(net, s) && Enabled(net, s, a) && (a.Handle? ==> BelowMax(a.event))
    requires r in s.replicas ==> RoundInv(s.replicas[r].pacemaker, s.world.logs[r])
    requires r in Next(net, s, a).replicas
    ensures RoundInv(Next(net, s, a).replicas[r].pacemaker, Next(net, s, a).world.logs[r])
  {
    hide ReplicaInv;
    hide WorldInv;
    hide Covers;
    hide VerifiedEvent;
    hide BelowMax;
    hide Step;
    if a.who == r {
      match a
      case StartUp(_, inputs) =>
        var p := P.AdvanceQC(P.NEW_PACEMAKER, GENESIS_QC).0;
        NewRoundProposes(net.configs[r], NEW_REPLICA.(pacemaker := p), None, inputs);
      case Handle(_, e, inputs) =>
        StepRounds(net.configs[r], s.world.keys, s.replicas[r], e, inputs);
        RoundInvStep(s.replicas[r], Step(net.configs[r], s.world.keys, s.replicas[r], e, inputs), s.world.logs[r]);
    }
  }

  lemma LogIsDisciplined(net: Network, s: SystemState, r: Id)
    requires SystemInv(net, s) && r in s.replicas
    ensures r in s.world.logs && Disciplined(s.world.logs[r])
  {
    hide ReplicaInv;
    hide Covers;
    hide Disciplined;
    hide Justified;
  }

  /** In every run, of any length, a replica's votes are in strictly increasing rounds and none is at
      or below a round it has given up. */
  lemma VotingDiscipline(net: Network, states: seq<SystemState>, actions: seq<Action>, i: nat, r: Id)
    requires ValidNetwork(net) && IsRun(net, states, actions) && i < |states| && r in states[i].replicas
    ensures r in states[i].world.logs
    ensures var log := states[i].world.logs[r];
            && (forall x, y :: 0 <= x < y < |log| && log[x].Voted? && log[y].Voted? ==>
                 log[x].block.round < log[y].block.round)
            && (forall x, y :: 0 <= x < y < |log| && log[x].TimedOut? && log[y].Voted? ==>
                 log[x].round < log[y].block.round)
  {
    hide SystemInv;
    hide Next;
    hide Justified;
    RunInv(net, states, actions, i);
    LogIsDisciplined(net, states[i], r);
    var log := states[i].world.logs[r];
    forall x, y | 0 <= x < y < |log| ensures InOrder(log[x], log[y]) { }
  }

  /** In every run: proposals in strictly increasing rounds, votes too and never at or below an
      abandoned round, and no timeout is held for any round but the current one. */
  lemma {:induction false} SigningDiscipline(net: Network, states: seq<SystemState>, actions: seq<Action>, i: nat,
                                             r: Id)
    requires ValidNetwork(net) && IsRun(net, states, actions) && |actions| < MAX_U64
    requires i < |states| && r in states[i].replicas
    ensures r in states[i].world.logs && RoundInv(states[i].replicas[r].pacemaker, states[i].world.logs[r])
    ensures Disciplined(states[i].world.logs[r])
  {
    hide SystemInv;
    hide Next;
    hide RoundInv;
    hide Disciplined;
    RunInv(net, states, actions, i);
    LogIsDisciplined(net, states[i], r);
    if i > 0 {
      RunInv(net, states, actions, i - 1);
      RoundsRiseSlowly(net, states, actions, i - 1);
      if r in states[i - 1].replicas { SigningDiscipline(net, states, actions, i - 1, r); }
      NextRoundInv(net, states[i - 1], actions[i - 1], r);
    }
  }

  ghost predicate ReachesAt(net: Network, states: seq<SystemState>, actions: seq<Action>, i: nat, r: Id, round: Round,
                            n: nat)
    requires |states| == |actions| + 1 && i < |actions|
  {
    && actions[i].Handle? && actions[i].who == r && r in net.configs && r in states[i].replicas
    && CountReaches(net.configs[r], states[i].replicas[r], actions[i].event, n)
    && actions[i].event.timeout.tmoInfo.round == round
  }

  lemma NextPassed(net: Network, s: SystemState, a: Action, r: Id, round: Round, n: nat)
    requires ValidNetwork(net) && SystemInv(net, s) && Enabled(net, s, a) && (a.Handle? ==> BelowMax(a.event))
    requires r in s.replicas && s.replicas[r].pacemaker.currentRound >= 1 && BucketsCurrent(s.replicas[r].pacemaker)
    requires Passed(s.replicas[r].pacemaker, round, n)
    ensures r in Next(net, s, a).replicas && Passed(Next(net, s, a).replicas[r].pacemaker, round, n)
  {
    hide ReplicaInv;
    hide WorldInv;
    hide Covers;
    hide VerifiedEvent;
    hide BelowMax;
    hide Step;
    hide Start;
    hide Passed;
    if a.who == r {
      var o := Step(net.configs[r], s.world.keys, s.replicas[r], a.event, a.inputs);
      StepRounds(net.configs[r], s.world.keys, s.replicas[r], a.event, a.inputs);
      PassedStays(s.replicas[r].pacemaker, o.replica.pacemaker, round, n);
    }
  }

  lemma {:induction false} PassedForever(net: Network, states: seq<SystemState>, actions: seq<Action>, i: nat, j: nat,
                                         r: Id, round: Round, n: nat)
    requires ValidNetwork(net) && IsRun(net, states, actions) && |actions| < MAX_U64
    requires i <= j < |states| && r in states[i].replicas && Passed(states[i].replicas[r].pacemaker, round, n)
    ensures r in states[j].replicas && Passed(states[j].replicas[r].pacemaker, round, n)
    decreases j - i
  {
    hide SystemInv;
    hide Next;
    hide Passed;
    if i < j {
      PassedForever(net, states, actions, i, j - 1, r, round, n);
      RunInv(net, states, actions, j - 1);
      RoundsRiseSlowly(net, states, actions, j - 1);
      SigningDiscipline(net, states, actions, j - 1, r);
      NextPassed(net, states[j - 1], actions[j - 1], r, round, n);
    }
  }

  /** One replica's count of timeouts for one round takes each value at most once in a run, however
      timeouts are duplicated and retransmitted. At f+1 that is the amplification, at the quorum
      the TC. */
  lemma ThresholdsFireOnce(net: Network, states: seq<SystemState>, actions: seq<Action>, i: nat, j: nat, r: Id,
                           round: Round, n: nat)
    requires ValidNetwork(net) && IsRun(net, states, actions) && |actions| < MAX_U64
    requires i < j < |actions| && ReachesAt(net, states, actions, i, r, round, n)
    ensures !ReachesAt(net, states, actions, j, r, round, n)
  {
    hide SystemInv;
    hide VerifiedEvent;
    hide BelowMax;
    hide Step;
    hide Passed;
    hide CountReaches;
    SigningDiscipline(net, states, actions, i, r);
    RoundsRiseSlowly(net, states, actions, i);
    ReachesIsFresh(net.configs[r], states[i].world.keys, states[i].replicas[r], actions[i].event, actions[i].inputs, n);
    PassedForever(net, states, actions, i + 1, j, r, round, n);
    if ReachesAt(net, states, actions, j, r, round, n) {
      SigningDiscipline(net, states, actions, j, r);
      RoundsRiseSlowly(net, states, actions, j);
      ReachesIsFresh(net.configs[r], states[j].world.keys, states[j].replicas[r], actions[j].event, actions[j].inputs,
                     n);
    }
  }

  /** In every run, handling timeouts for one round makes a replica give up at most once and completes
      at most one certificate. */
  lemma GivesUpOnce(net: Network, states: seq<SystemState>, actions: seq<Action>, i: nat, j: nat, r: Id)
    requires ValidNetwork(net) && IsRun(net, states, actions) && |actions| < MAX_U64 && i < j < |actions|
    requires actions[i].Handle? && actions[i].who == r && actions[i].event.TimeoutEvent?
    requires actions[j].Handle? && actions[j].who == r && actions[j].event.TimeoutEvent?
    requires actions[i].event.timeout.tmoInfo.round == actions[j].event.timeout.tmoInfo.round
    ensures var cfg, k, l := net.configs[r], states[i].world.keys, states[j].world.keys;
            var x, y := states[i].replicas[r], states[j].replicas[r];
            var m, o := actions[i].event.timeout, actions[j].event.timeout;
            && !(FormsTC(cfg, k, x, m, actions[i].inputs.timeoutSig)
                 && FormsTC(cfg, l, y, o, actions[j].inputs.timeoutSig))
            && !(Amplifies(cfg, k, x, m, actions[i].inputs.timeoutSig)
                 && Amplifies(cfg, l, y, o, actions[j].inputs.timeoutSig))
  {
    hide VerifiedEvent;
    hide Step;
    hide Start;
    hide CountReaches;
    hide FormsTC;
    hide Amplifies;
    var cfg, round := net.configs[r], actions[i].event.timeout.tmoInfo.round;
    ThresholdsAreCounts(cfg, states[i].world.keys, states[i].replicas[r], actions[i].event.timeout,
                        actions[i].inputs.timeoutSig);
    ThresholdsAreCounts(cfg, states[j].world.keys, states[j].replicas[r], actions[j].event.timeout,
                        actions[j].inputs.timeoutSig);
    if ReachesAt(net, states, actions, i, r, round, cfg.Quorum()) {
      ThresholdsFireOnce(net, states, actions, i, j, r, round, cfg.Quorum());
    }
    if ReachesAt(net, states, actions, i, r, round, cfg.Tolerated() + 1) {
      ThresholdsFireOnce(net, states, actions, i, j, r, round, cfg.Tolerated() + 1);
    }
  }

  /** In every run a step never lowers a replica's round, and handling a proposal or timeout for a
      round leaves the replica in that round or a later one. */
  lemma RoundsInRuns(net: Network, states: seq<SystemState>, actions: seq<Action>, i: nat)
    requires ValidNetwork(net) && IsRun(net, states, actions) && |actions| < MAX_U64
    requires i < |actions| && actions[i].Handle?
    ensures var was, now := states[i].replicas[actions[i].who].pacemaker,
              states[i + 1].replicas[actions[i].who].pacemaker;
            && now.currentRound >= was.currentRound
            && (actions[i].event.ProposalEvent? ==> now.currentRound >= actions[i].event.proposal.block.round)
            && (actions[i].event.TimeoutEvent? ==> now.currentRound >= actions[i].event.timeout.tmoInfo.round)
  {
    hide ReplicaInv;
    hide WorldInv;
    hide Covers;
    hide BelowMax;
    hide HandleProposal;
    hide HandleVote;
    hide HandleTimeout;
    hide LocalTimeoutRound;
    hide VerifyProposal;
    hide VerifyTimeout;
    hide VerifyVote;
    var a, s := actions[i], states[i];
    RunInv(net, states, actions, i);
    SigningDiscipline(net, states, actions, i, a.who);
    RoundsRiseSlowly(net, states, actions, i);
    StepRounds(net.configs[a.who], s.world.keys, s.replicas[a.who], a.event, a.inputs);
    if a.event.ProposalEvent? {
      ProposalRounds(net.configs[a.who], s.world.keys, s.replicas[a.who], a.event.proposal, a.inputs);
    } else if a.event.TimeoutEvent? {
      TimeoutRounds(net.configs[a.who], s.world.keys, s.replicas[a.who], a.event.timeout, a.inputs);
    }
  }
}
