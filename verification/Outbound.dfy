// What a correct replica sends is accepted: every vote, timeout and proposal passes the edge
// checks of every other replica, and its proposals can be voted for.
module Outbound {
  import opened Wire
  import opened Hashing
  import opened Verification
  import opened Chains
  import opened LedgerModel
  import opened SafetyRules
  import opened Agreement
  import opened TreeModel
  import P = PacemakerModel
  import opened ReplicaModel
  import opened ReplicaInvariant
  import opened System

  // --------------------------------------------------------------------------- proposals

  /** How the current round was entered: on a certificate not above highQC, or on a TC whose
      reports highQC has caught up with. */
  ghost predicate Entered(r: Replica, tc: Option<TimeoutCert>) {
    if tc.None? then exists q: Round :: Succ(q) == r.pacemaker.currentRound && q <= r.tree.highQC.voteInfo.round
    else Succ(tc.value.round) == r.pacemaker.currentRound
         && MaxHighQCRound(tc.value.votes) <= r.tree.highQC.voteInfo.round
  }

  /** Every replica that has not yet voted or timed out as high may vote for the block. */
  ghost predicate Votable(k: Keyring, p: ProposalMsg) {
    forall c: Counters :: c.highestVoteRound < p.block.round ==> MayVote(k, c, p.block, p.lastRoundTc)
  }

  /** A proposal verifies exactly when the certificate it extends is below its round. */
  ghost predicate Acceptable(k: Keyring, p: ProposalMsg) {
    && (VerifyProposal(k, p) <==> QCRound(p.block.qc) < p.block.round)
    && (QCRound(p.block.qc) < p.block.round ==> Votable(k, p))
  }

  lemma EntryIsWellFormed(r: Replica, tc: Option<TimeoutCert>)
    requires Entered(r, tc) && r.tree.highQC.voteInfo.round < r.pacemaker.currentRound
    ensures var q, round := r.tree.highQC.voteInfo.round, r.pacemaker.currentRound;
            && WellFormed(round, q, JustifyingTC(q, round, tc))
            && (Consecutive(round, q) || SafeToExtend(round, q, JustifyingTC(q, round, tc)))
  { }

  lemma NewRoundAcceptable(cfg: Config, k: Keyring, k': Keyring, r: Replica, tc: Option<TimeoutCert>, inputs: Inputs,
                           p: ProposalMsg)
    requires TreeInv(k, r.tree) && VerifyTC(k, tc) && Entered(r, tc)
    requires Grows(k, k')
    requires Proposal(p) in ProcessNewRound(cfg, r, tc, inputs).sent
    requires (cfg.self, p.block.id) in k'.signed
    ensures Acceptable(k', p)
  {
    hide BlockId;
    hide VerifyQC;
    hide VerifyTC;
    hide VotesInv;
    VerifyQCGrows(k, k', r.tree.highQC);
    VerifyQCGrows(k, k', r.tree.highCommitQC);
    VerifyTCGrows(k, k', tc);
    assert VerifyTC(k', None) by { NoTCVerifies(k'); }
    if r.tree.highQC.voteInfo.round < r.pacemaker.currentRound {
      EntryIsWellFormed(r, tc);
    }
  }

  lemma NoTCVerifies(k: Keyring)
    ensures VerifyTC(k, None)
  { }

  // ------------------------------------------------------------------ votes and timeouts

  lemma VoteVerifies(cfg: Config, k: Keyring, k': Keyring, r: Replica, b: Block, tc: Option<TimeoutCert>,
                     sig: Option<Blob>, v: VoteMsg, to: Id)
    requires StateIds(cfg.execute) && TreeInv(k, r.tree) && Grows(k, k')
    requires Vote(v, to) in MakeVote(cfg, k, r, b, tc, sig).sent
    requires (cfg.self, LedgerCommitDigest(v.ledgerCommitInfo)) in k'.signed
    ensures VerifyVote(k', v)
  {
    hide LedgerCommitPreimage;
    hide VoteInfoPreimage;
    hide BlockPreimage;
    hide VotesInv;
    hide Replay;
    VerifyQCGrows(k, k', r.tree.highCommitQC);
    ReplayIsHash(cfg.execute, b.id);
    ReplayIsHash(cfg.execute, QCBlockId(b.qc));
  }

  lemma TimeoutVerifies(cfg: Config, k: Keyring, k': Keyring, r: Replica, sig: Option<Blob>, m: TimeoutMsg)
    requires TreeInv(k, r.tree) && VerifyTC(k, r.pacemaker.lastRoundTC) && Grows(k, k')
    requires Timeout(m) in LocalTimeoutRound(cfg, k, r, sig).sent
    requires (cfg.self, TimeoutDigest(m.tmoInfo.round, QCRound(m.tmoInfo.highQc))) in k'.signed
    ensures VerifyTimeout(k', m)
  {
    hide VerifyQC;
    hide VerifyTC;
    hide TimeoutDigest;
    hide VotesInv;
    VerifyQCGrows(k, k', r.tree.highQC);
    VerifyQCGrows(k, k', r.tree.highCommitQC);
    VerifyTCGrows(k, k', r.pacemaker.lastRoundTC);
    NoTCVerifies(k');
  }

  // ------------------------------------------------------------------------ every step

  ghost predicate MessageOk(k: Keyring, m: Message) {
    match m
    case Vote(v, _) => VerifyVote(k, v)
    case Timeout(t) => VerifyTimeout(k, t)
    case Proposal(p) => Acceptable(k, p)
    case RequestBlock(_) => true
    case ReplyBlock(_) => true
  }

  ghost predicate AllOk(k: Keyring, ms: seq<Message>) { forall m :: m in ms ==> MessageOk(k, m) }

  lemma {:induction false} RecordedIsSigned(w: World, r: Id, ss: seq<Statement>, s: Statement)
    requires r in w.logs && s in ss
    ensures (r, StatementDigest(s)) in RecordAll(w, r, ss).keys.signed
  {
    hide StatementDigest;
    var last := |ss| - 1;
    if s != ss[last] { RecordedIsSigned(w, r, ss[..last], s); }
  }

  lemma MakeVoteOk(cfg: Config, w: World, r: Replica, b: Block, tc: Option<TimeoutCert>, sig: Option<Blob>)
    requires Healthy(cfg, w, r)
    ensures var o := MakeVote(cfg, w.keys, r, b, tc, sig); AllOk(RecordAll(w, cfg.self, o.signed).keys, o.sent)
  {
    hide LedgerInv;
    hide CommitCertified;
    hide Covers;
    hide P.PacemakerInv;
    hide TreeInv;
    hide VerifyVote;
    hide BallotFor;
    var o := MakeVote(cfg, w.keys, r, b, tc, sig);
    forall m | m in o.sent ensures MessageOk(RecordAll(w, cfg.self, o.signed).keys, m) {
      RecordedIsSigned(w, cfg.self, o.signed, o.signed[0]);
      VoteVerifies(cfg, w.keys, RecordAll(w, cfg.self, o.signed).keys, r, b, tc, sig, m.vote, m.to);
    }
  }

  lemma LocalTimeoutOk(cfg: Config, w: World, r: Replica, sig: Option<Blob>)
    requires Healthy(cfg, w, r)
    ensures var o := LocalTimeoutRound(cfg, w.keys, r, sig); AllOk(RecordAll(w, cfg.self, o.signed).keys, o.sent)
  {
    hide LedgerInv;
    hide CommitCertified;
    hide Covers;
    hide TreeInv;
    hide WorldInv;
    hide VerifyTimeout;
    hide VerifyTC;
    hide MayTimeout;
    hide TimeoutDigest;
    var o := LocalTimeoutRound(cfg, w.keys, r, sig);
    forall m | m in o.sent ensures MessageOk(RecordAll(w, cfg.self, o.signed).keys, m) {
      RecordedIsSigned(w, cfg.self, o.signed, o.signed[0]);
      TimeoutVerifies(cfg, w.keys, RecordAll(w, cfg.self, o.signed).keys, r, sig, m.timeout);
    }
  }

  lemma NewRoundOk(cfg: Config, w: World, r: Replica, tc: Option<TimeoutCert>, inputs: Inputs)
    requires Healthy(cfg, w, r) && VerifyTC(w.keys, tc) && Entered(r, tc)
    ensures var o := ProcessNewRound(cfg, r, tc, inputs); AllOk(RecordAll(w, cfg.self, o.signed).keys, o.sent)
  {
    hide LedgerInv;
    hide CommitCertified;
    hide Covers;
    hide TreeInv;
    hide WorldInv;
    hide P.PacemakerInv;
    hide VerifyTC;
    hide Acceptable;
    hide Entered;
    hide BlockId;
    var o := ProcessNewRound(cfg, r, tc, inputs);
    forall m | m in o.sent ensures MessageOk(RecordAll(w, cfg.self, o.signed).keys, m) {
      RecordedIsSigned(w, cfg.self, o.signed, o.signed[0]);
      NewRoundAcceptable(cfg, w.keys, RecordAll(w, cfg.self, o.signed).keys, r, tc, inputs, m.proposal);
    }
  }

  /** More signing keeps a message acceptable. */
  lemma MessageOkGrows(k: Keyring, k': Keyring, m: Message)
    requires Grows(k, k') && MessageOk(k, m)
    ensures MessageOk(k', m)
  {
    hide BlockId;
    hide TimeoutDigest;
    hide LedgerCommitDigest;
    hide VoteInfoHash;
    hide VerifyQC;
    hide VerifyTC;
    match m
    case Vote(v, _) => if v.highCommitQc.Some? { VerifyQCGrows(k, k', v.highCommitQc.value); }
    case Timeout(t) =>
      VerifyQCGrows(k, k', t.tmoInfo.highQc.value);
      if t.highCommitQc.Some? { VerifyQCGrows(k, k', t.highCommitQc.value); }
      VerifyTCGrows(k, k', t.lastRoundTc);
    case Proposal(p) => AcceptableGrows(k, k', p);
    case RequestBlock(_) =>
    case ReplyBlock(_) =>
  }

  lemma AcceptableGrows(k: Keyring, k': Keyring, p: ProposalMsg)
    requires Grows(k, k') && Acceptable(k, p)
    ensures Acceptable(k', p)
  {
    hide BlockId;
    hide VerifyQC;
    hide VerifyTC;
    if QCRound(p.block.qc) < p.block.round {
      VerifyQCGrows(k, k', p.block.qc.value);
      if p.highCommitQc.Some? { VerifyQCGrows(k, k', p.highCommitQc.value); }
      VerifyTCGrows(k, k', p.lastRoundTc);
      forall c: Counters | c.highestVoteRound < p.block.round ensures MayVote(k', c, p.block, p.lastRoundTc) {
        assert MayVote(k, c, p.block, p.lastRoundTc);
      }
    }
  }

  lemma ComposeOk(cfg: Config, w: World, first: Outcome, second: Outcome)
    requires cfg.self in w.logs
    requires AllOk(RecordAll(w, cfg.self, first.signed).keys, first.sent)
    requires AllOk(RecordAll(RecordAll(w, cfg.self, first.signed), cfg.self, second.signed).keys, second.sent)
    ensures var o := After(first.sent, first.signed, second); AllOk(RecordAll(w, cfg.self, o.signed).keys, o.sent)
  {
    hide MessageOk;
    var w1 := RecordAll(w, cfg.self, first.signed);
    var w2 := RecordAll(w1, cfg.self, second.signed);
    RecordTwice(w, cfg.self, first.signed, second.signed);
    forall m | m in first.sent ensures MessageOk(w2.keys, m) { MessageOkGrows(w1.keys, w2.keys, m); }
  }

  lemma ProposalHandlerOk(cfg: Config, w: World, r: Replica, p: ProposalMsg, inputs: Inputs)
    requires Healthy(cfg, w, r) && VerifyProposal(w.keys, p)
    ensures var o := HandleProposal(cfg, w.keys, r, p, inputs); AllOk(RecordAll(w, cfg.self, o.signed).keys, o.sent)
  {
    hide ReplicaInv;
    hide WorldInv;
    hide Covers;
    hide VerifyQC;
    hide VerifyTC;
    hide BlockId;
    hide Absorb;
    hide MakeVote;
    AbsorbInv(cfg, w.keys, r, p.block.qc, p.highCommitQc, p.lastRoundTc);
    var r1 := Absorb(cfg, r, p.block.qc, p.highCommitQc, p.lastRoundTc);
    InsertInv(w.keys, r1, p.block);
    var inserted := Insert(r1, p.block);
    SilentStep(cfg, w, inserted.replica);
    MakeVoteOk(cfg, w, inserted.replica, p.block, p.lastRoundTc, inputs.voteSig);
    ComposeOk(cfg, w, inserted, MakeVote(cfg, w.keys, inserted.replica, p.block, p.lastRoundTc, inputs.voteSig));
  }

  lemma RemoteTimeoutOk(cfg: Config, w: World, r: Replica, m: TimeoutMsg, sig: Option<Blob>)
    requires Healthy(cfg, w, r) && VerifyTimeout(w.keys, m)
    requires r.tree.highQC.voteInfo.round >= QCRound(m.tmoInfo.highQc)
    ensures var (o, tc) := ProcessRemoteTimeout(cfg, w.keys, r, m.tmoInfo, sig);
            && AllOk(RecordAll(w, cfg.self, o.signed).keys, o.sent)
            && (forall x :: x in o.sent ==> !x.Proposal?)
            && (tc.Some? ==> tc.value.round >= o.replica.pacemaker.currentRound)
  {
    hide ReplicaInv;
    hide WorldInv;
    hide Covers;
    hide VerifyTimeout;
    hide MayTimeout;
    hide P.TimeoutCertOf;
    SilentStep(cfg, w, r);
    if !P.Ignored(r.pacemaker, m.tmoInfo) {
      var r1 := r.(pacemaker := P.Collect(r.pacemaker, m.tmoInfo));
      CollectKeeps(w.keys, r, m);
      StopKeeps(w.keys, r1);
      LocalTimeoutOk(cfg, w, r1.(pacemaker := P.Stop(r1.pacemaker)), sig);
      TimeoutCertRound(m.tmoInfo.round, P.BucketWith(r.pacemaker, m.tmoInfo));
    }
  }

  lemma TimeoutHandlerOk(cfg: Config, w: World, r: Replica, m: TimeoutMsg, inputs: Inputs)
    requires Healthy(cfg, w, r) && VerifyTimeout(w.keys, m)
    ensures var o := HandleTimeout(cfg, w.keys, r, m, inputs); AllOk(RecordAll(w, cfg.self, o.signed).keys, o.sent)
  {
    hide ReplicaInv;
    hide WorldInv;
    hide Covers;
    hide VerifyQC;
    hide VerifyTC;
    hide Absorb;
    hide ProcessRemoteTimeout;
    hide ProcessNewRound;
    hide MessageOk;
    AbsorbInv(cfg, w.keys, r, m.tmoInfo.highQc, m.highCommitQc, m.lastRoundTc);
    var r1 := Absorb(cfg, r, m.tmoInfo.highQc, m.highCommitQc, m.lastRoundTc);
    RemoteTimeoutHealthy(cfg, w, r1, m, inputs.timeoutSig);
    RemoteTimeoutOk(cfg, w, r1, m, inputs.timeoutSig);
    var (o, tc) := ProcessRemoteTimeout(cfg, w.keys, r1, m.tmoInfo, inputs.timeoutSig);
    if tc.Some? {
      var w1 := RecordAll(w, cfg.self, o.signed);
      VerifyTCGrows(w.keys, w1.keys, tc);
      AdvanceTCInv(w1.keys, o.replica, tc);
      var r2 := AdvanceRoundTC(o.replica, tc);
      assert Entered(r2, tc);
      NewRoundOk(cfg, w1, r2, tc, inputs);
      ComposeOk(cfg, w, o, ProcessNewRound(cfg, r2, tc, inputs));
    }
  }

  lemma VoteHandlerOk(cfg: Config, w: World, r: Replica, m: VoteMsg, inputs: Inputs)
    requires Healthy(cfg, w, r) && VerifyVote(w.keys, m)
    ensures var o := HandleVote(cfg, r, m, inputs); AllOk(RecordAll(w, cfg.self, o.signed).keys, o.sent)
  {
    hide ReplicaInv;
    hide WorldInv;
    hide Covers;
    hide VerifyQC;
    hide Disciplined;
    hide ProcessVote;
    hide ProcessNewRound;
    hide ProcessTreeQC;
    hide ProcessCertificateQC;
    hide MessageOk;
    ProcessTreeQCInv(w.keys, r, m.highCommitQc);
    var r1 := ProcessTreeQC(r, m.highCommitQc);
    TreeQCKeepsCounters(r, m.highCommitQc);
    TreeVoteKeeps(cfg, w.keys, r1, m, inputs.authorSig);
    var (tree, qc) := ProcessVote(cfg.self, cfg.Quorum(), r1.tree, m, inputs.authorSig);
    var r2 := r1.(tree := tree);
    SilentStep(cfg, w, r2);
    if qc.Some? && !OutOfWindow(r.pacemaker.currentRound, m.voteInfo.round) {
      CompletedCertificate(cfg, w, r1, m, inputs.authorSig);
      var s := Aggregated(qc.value.signatures);
      var w1 := RecordAll(w, cfg.self, [s]);
      MembersAreValid(cfg, w);
      OtherIsSafe(r2.counters, s, w.logs[cfg.self]);
      Signs(cfg, w, r2, r2, s);
      ProcessCertificateQCInv(cfg, w1.keys, r2, qc);
      var (r3, moved) := ProcessCertificateQC(cfg, r2, qc);
      if moved {
        MovedByCertificate(cfg, r2, qc.value);
        assert Entered(r3, None);
        NoTCVerifies(w1.keys);
        NewRoundOk(cfg, w1, r3, None, inputs);
        ComposeOk(cfg, w, Outcome(r2, [], [s]), ProcessNewRound(cfg, r3, None, inputs));
      }
    }
  }

  lemma MovedByCertificate(cfg: Config, r: Replica, qc: QuorumCert)
    requires ProcessCertificateQC(cfg, r, Some(qc)).1
    ensures ProcessCertificateQC(cfg, r, Some(qc)).0.pacemaker.currentRound == Succ(qc.voteInfo.round)
  {
    hide ProcessTreeQC;
    hide UpdateLeaders;
  }

  /** Everything a correct replica sends passes the edge of every replica, with one exception
      that the sender could check: a proposal over a certificate at or above its own round. */
  lemma SentMessagesVerify(cfg: Config, w: World, r: Replica, e: Event, inputs: Inputs)
    requires Healthy(cfg, w, r) && VerifiedEvent(w.keys, e)
    ensures var o := Step(cfg, w.keys, r, e, inputs); AllOk(RecordAll(w, cfg.self, o.signed).keys, o.sent)
  {
    hide ReplicaInv;
    hide WorldInv;
    hide Covers;
    hide BlockId;
    hide VerifyProposal;
    hide VerifyVote;
    hide VerifyTimeout;
    hide HandleProposal;
    hide HandleTimeout;
    hide HandleVote;
    hide LocalTimeoutRound;
    match e
    case ProposalEvent(p) => ProposalHandlerOk(cfg, w, r, p, inputs);
    case VoteEvent(m) => VoteHandlerOk(cfg, w, r, m, inputs);
    case TimeoutEvent(m) => TimeoutHandlerOk(cfg, w, r, m, inputs);
    case LocalTimeoutEvent(_) => LocalTimeoutOk(cfg, w, r, inputs.timeoutSig);
    case BlockEvent(b) =>
    case BlockRequestEvent(_) =>
  }

  /** The first proposal, sent on starting, is acceptable too. */
  lemma StartOk(cfg: Config, w: World, inputs: Inputs)
    requires Member(cfg, w) && WorldInv(cfg.execute, w) && w.logs[cfg.self] == []
    ensures var o := Start(cfg, inputs); AllOk(RecordAll(w, cfg.self, o.signed).keys, o.sent)
  {
    NewReplicaInv(w.keys);
    AdvanceQCInv(w.keys, NEW_REPLICA, GENESIS_QC);
    hide ReplicaInv;
    hide WorldInv;
    hide VerifyTC;
    NoTCVerifies(w.keys);
    var r := NEW_REPLICA.(pacemaker := P.AdvanceQC(P.NEW_PACEMAKER, GENESIS_QC).0);
    assert r.pacemaker.currentRound == Succ(0) && r.tree.highQC.voteInfo.round == 0;
    NewRoundOk(cfg, w, r, None, inputs);
  }

  lemma SentOk(net: Network, states: seq<SystemState>, actions: seq<Action>, i: nat)
    requires ValidNetwork(net) && IsRun(net, states, actions) && i < |actions|
    ensures AllOk(states[i + 1].world.keys, OutcomeOf(net, states[i], actions[i]).sent)
  {
    hide Step;
    hide Start;
    hide WorldInv;
    hide ReplicaInv;
    hide Covers;
    hide AllOk;
    RunInv(net, states, actions, i);
    var s, cfg := states[i], net.configs[actions[i].who];
    assert Member(cfg, s.world);
    match actions[i]
    case StartUp(_, inputs) => StartOk(cfg, s.world, inputs);
    case Handle(r, e, inputs) => SentMessagesVerify(cfg, s.world, s.replicas[r], e, inputs);
  }

  /** In every run, everything a correct replica sends passes every replica's edge whenever it arrives,
      with the same exception. */
  lemma SentMessagesVerifyInRuns(net: Network, states: seq<SystemState>, actions: seq<Action>, i: nat, j: nat)
    requires ValidNetwork(net) && IsRun(net, states, actions) && i < |actions| && i < j < |states|
    ensures AllOk(states[j].world.keys, OutcomeOf(net, states[i], actions[i]).sent)
  {
    hide MessageOk;
    hide OutcomeOf;
    SentOk(net, states, actions, i);
    KeysOnlyGrow(net, states, actions, i + 1, j);
    forall m | m in OutcomeOf(net, states[i], actions[i]).sent ensures MessageOk(states[j].world.keys, m) {
      MessageOkGrows(states[i + 1].world.keys, states[j].world.keys, m);
    }
  }
}
