// A run in which a correct leader proposes a block that no replica accepts. Replica 2 is faulty.
// Replicas 0 and 3 vote in round 1, give up rounds 1 to 3 and vote in round 4, while replica 1, which
// leads round 2, is still in round 1. The faulty replica's round-1 vote then completes the round-1
// certificate and brings along the one for round 4.
module LaggingLeader {
  import opened Wire
  import opened Hashing
  import opened Verification
  import opened Chains
  import opened LedgerModel
  import opened SafetyRules
  import opened TreeModel
  import P = PacemakerModel
  import opened ReplicaModel
  import opened System
  import opened Outbound
  import opened Scenario

  // ------------------------------------------------------------------------ the messages

  function B4(): Block { NewBlock(2, 4, [], Some(GENESIS_QC)) }

  /** The certificate replicas 0 and 3 and the faulty one make by giving up `round`. */
  function TC(round: Round): (tc: TimeoutCert)
    ensures tc.round == round
  {
    TimeoutCert(round, [TimeoutVote(0, Sig(0)), TimeoutVote(0, Sig(2)), TimeoutVote(0, Sig(3))])
  }

  /** The faulty replica's timeout for the round after. */
  function T(round: Round): TimeoutMsg {
    TimeoutMsg(TimeoutInfo(Succ(round), Some(GENESIS_QC), 2, Sig(2)), Some(TC(round)), None)
  }

  function P4(): ProposalMsg { ProposalMsg(B4(), Some(TC(3)), None, 2, Sig(2)) }

  ghost function Ballot4(): Ballot { Cast(B4(), ZERO_HASH) }

  ghost function Cert4(): QuorumCert { CertBy(2, Ballot4()) }

  ghost function Vote1(from: Id, commitQC: QuorumCert): VoteMsg {
    VoteMsg(Ballot1().info, Ballot1().commit, Some(commitQC), from, Sig(from))
  }

  // ------------------------------------------------------------------- what verifies when

  lemma TCVerifies(s: SystemState, round: Round, tc: Option<TimeoutCert>)
    requires s.world.keys.validators == {0, 1, 2, 3} && 2 in s.world.keys.faulty && round > 0
    requires BothSigned(s, TimedOut(round, GENESIS_QC, tc))
    ensures VerifyTC(s.world.keys, Some(TC(round)))
  {
    hide TimeoutDigest;
    hide BlockId;
  }

  lemma TimeoutVerifies(s: SystemState, round: Round)
    requires s.world.keys.faulty == {2} && VerifyTC(s.world.keys, Some(TC(round))) && 0 < round < 3
    ensures VerifyTimeout(s.world.keys, T(round))
  {
    hide TimeoutDigest;
    hide BlockId;
    hide VerifyTC;
    hide VerifyQC;
    GenesisVerifies(s.world.keys);
  }

  lemma P4Verifies(s: SystemState)
    requires s.world.keys.faulty == {2} && VerifyTC(s.world.keys, Some(TC(3)))
    ensures VerifyProposal(s.world.keys, P4())
  {
    hide BlockId;
    hide VerifyTC;
    hide VerifyQC;
    GenesisVerifies(s.world.keys);
  }

  lemma Cert4Verifies(z: Setup, s: SystemState)
    requires z.Sane() && z.bad == 2 && Keys(z, s.world.keys) && BothSigned(s, Voted(B4(), Some(TC(3)), Ballot4()))
    ensures VerifyQC(s.world.keys, Cert4())
  {
    hide BlockId;
    hide Cast;
    hide VerifyQC;
    hide StatementDigest;
    GenesisVerifies(s.world.keys);
    CertVerifies(z, s, B4(), Some(TC(3)), ZERO_HASH);
  }

  lemma Vote1Verifies(s: SystemState, from: Id, commitQC: QuorumCert)
    requires from in s.world.keys.faulty || HasSigned(s, from, Voted(B1(), None, Ballot1()))
    requires VerifyQC(s.world.keys, commitQC)
    ensures VerifyVote(s.world.keys, Vote1(from, commitQC))
  {
    hide BlockId;
    hide Replay;
    hide VoteInfoHash;
    hide LedgerCommitDigest;
    hide VerifyQC;
    GenesisVerifies(s.world.keys);
    StateIsSized(GENESIS_BLOCK.id);
    InfoIsSized(B1(), Replay(ExecuteHash, GENESIS_BLOCK.id));
  }

  // ------------------------------------------------------------------- how a voter steps

  lemma GivesUp(z: Setup, v: Id, k: Keyring, r: Replica, round: Round, voted: Round, tc: Option<TimeoutCert>)
    requires Voter(r, round, voted, tc) && voted <= round && round > 0 && VerifyTC(k, tc)
    requires round == 1 || (tc.Some? && Succ(tc.value.round) == round)
    ensures var o := LocalTimeoutRound(z.Cfg(v), k, r, Some([]));
            Voter(o.replica, round, round, tc) && TimedOut(round, GENESIS_QC, tc) in o.signed
  {
    hide BlockId;
    hide VerifyQC;
    hide VerifyTC;
    GenesisVerifies(k);
  }

  lemma Enters(z: Setup, v: Id, k: Keyring, r: Replica, round: Round, voted: Round, tc: Option<TimeoutCert>)
    requires Voter(r, round, voted, tc) && 0 < round < 3
    ensures var o := HandleTimeout(z.Cfg(v), k, r, T(round), SIGNED);
            Voter(o.replica, round + 1, voted, Some(TC(round)))
  {
    hide BlockId;
    hide ProcessCertificateQC;
    hide LocalTimeoutRound;
    hide P.TimeoutCertOf;
    var cfg, m := z.Cfg(v), T(round);
    GenesisIsOld(cfg, r);
    NothingToRead(cfg, r);
    var r1 := Absorb(cfg, r, m.tmoInfo.highQc, m.highCommitQc, m.lastRoundTc);
    assert r1 == AdvanceRoundTC(r, Some(TC(round)));
    assert r1.pacemaker.timeouts == map[];
    assert |P.BucketWith(r1.pacemaker, m.tmoInfo).senders| == 1;
  }

  lemma VotesB4(z: Setup, v: Id, k: Keyring, r: Replica, tc: Option<TimeoutCert>)
    requires Voter(r, 3, 3, tc) && VerifyTC(k, Some(TC(3)))
    ensures Voted(B4(), Some(TC(3)), Ballot4()) in HandleProposal(z.Cfg(v), k, r, P4(), SIGNED).signed
  {
    hide BlockId;
    hide Replay;
    hide VerifyQC;
    hide VerifyTC;
    hide VoteInfoHash;
    hide ProcessCertificateQC;
    hide Reaches;
    var cfg, m := z.Cfg(v), P4();
    GenesisVerifies(k);
    GenesisIsOld(cfg, r);
    NothingToRead(cfg, r);
    MaxHighQCRoundLeast(TC(3).votes, 0);
    assert Absorb(cfg, r, m.block.qc, m.highCommitQc, m.lastRoundTc) == AdvanceRoundTC(r, Some(TC(3)));
  }

  // -------------------------------------------------------------- how the leader steps

  ghost function LagTree(sigs: seq<Signature>, voters: set<(Round, Id)>): Tree {
    NEW_TREE.(votes := map[LedgerCommitDigest(Ballot1().commit) := VoteBucket(Ballot1().info, Ballot1().commit, sigs)],
              voters := voters)
  }

  ghost predicate Lagging(r: Replica, t: Tree) {
    r.tree == t && r.pacemaker.currentRound == 1 && r.leaders == map[]
  }

  lemma FirstVote(z: Setup, r: Replica)
    requires Lagging(r, NEW_TREE)
    ensures Lagging(HandleVote(z.Cfg(1), r, Vote1(0, GENESIS_QC), SIGNED).replica, LagTree([Sig(0)], {(1, 0)}))
  {
    hide BlockId;
    hide Replay;
    hide VoteInfoHash;
    hide LedgerCommitDigest;
    hide ProcessTreeQC;
    hide Canonical;
    GenesisIsOld(z.Cfg(1), r);
  }

  lemma SecondVote(z: Setup, r: Replica)
    requires Lagging(r, LagTree([Sig(0)], {(1, 0)}))
    ensures Lagging(HandleVote(z.Cfg(1), r, Vote1(3, GENESIS_QC), SIGNED).replica,
                    LagTree([Sig(0), Sig(3)], {(1, 0), (1, 3)}))
  {
    hide BlockId;
    hide Replay;
    hide VoteInfoHash;
    hide LedgerCommitDigest;
    hide ProcessTreeQC;
    hide Canonical;
    GenesisIsOld(z.Cfg(1), r);
    assert [Sig(0)] + [Sig(3)] == [Sig(0), Sig(3)];
  }

  lemma ThirdVoteCompletes(t: Tree)
    requires t == LagTree([Sig(0), Sig(3)], {(1, 0), (1, 3)}).(highQC := Cert4())
    ensures var (tree, qc) := ProcessVote(1, 3, t, Vote1(2, Cert4()), Some([]));
            && tree.highQC == Cert4()
            && qc.Some? && qc.value.voteInfo == Ballot1().info && qc.value.ledgerCommitInfo == Ballot1().commit
  {
    hide BlockId;
    hide Replay;
    hide VoteInfoHash;
    hide LedgerCommitDigest;
    hide Canonical;
  }

  lemma CompletedMoves(z: Setup, r: Replica, qc: QuorumCert)
    requires r.tree.highQC == Cert4() && r.leaders == map[] && r.pacemaker.currentRound == 1
    requires qc.voteInfo == Ballot1().info && qc.ledgerCommitInfo == Ballot1().commit
    ensures var (r', moved) := ProcessCertificateQC(z.Cfg(1), r, Some(qc));
            moved && r'.pacemaker.currentRound == 2 && r'.tree.highQC == Cert4() && r'.leaders == map[]
  {
    hide BlockId;
    hide Replay;
    hide VoteInfoHash;
    hide Commit;
  }

  lemma ThirdVote(z: Setup, r: Replica) returns (p: ProposalMsg)
    requires Lagging(r, LagTree([Sig(0), Sig(3)], {(1, 0), (1, 3)}))
    ensures Proposal(p) in HandleVote(z.Cfg(1), r, Vote1(2, Cert4()), SIGNED).sent
    ensures p.block.author == 1 && p.block.round == 2 && QCRound(p.block.qc) == 4
  {
    hide BlockId;
    hide Replay;
    hide VoteInfoHash;
    hide ProcessVote;
    hide ProcessCertificateQC;
    hide Commit;
    var cfg, m := z.Cfg(1), Vote1(2, Cert4());
    var r1 := ProcessTreeQC(r, m.highCommitQc);
    assert r1.tree == LagTree([Sig(0), Sig(3)], {(1, 0), (1, 3)}).(highQC := Cert4());
    ThirdVoteCompletes(r1.tree);
    var (tree, qc) := ProcessVote(1, 3, r1.tree, m, Some([]));
    CompletedMoves(z, r1.(tree := tree), qc.value);
    var r3 := ProcessCertificateQC(cfg, r1.(tree := tree), qc).0;
    assert cfg.Quorum() == 3;
    p := ProcessNewRound(cfg, r3, None, SIGNED).sent[0].proposal;
  }

  // ----------------------------------------------------------------------------- the run

  lemma BothGiveUp(z: Setup, s: SystemState, round: Round, voted: Round, tc: Option<TimeoutCert>)
    returns (s': SystemState)
    requires z.bad == 2 && Both(z, s, round, voted, tc) && voted <= round && round > 0 && VerifyTC(s.world.keys, tc)
    requires round == 1 || (tc.Some? && Succ(tc.value.round) == round)
    ensures Both(z, s', round, round, tc) && Grows(s.world.keys, s'.world.keys)
    ensures BothSigned(s', TimedOut(round, GENESIS_QC, tc))
  {
    hide LocalTimeoutRound;
    hide Start;
    hide Voter;
    hide Reached;
    hide VerifyTC;
    hide StatementDigest;
    GivesUp(z, 0, s.world.keys, s.replicas[0], round, voted, tc);
    s' := Handles(z, s, 0, LocalTimeoutEvent(s.replicas[0].pacemaker.epoch));
    VerifyTCGrows(s.world.keys, s'.world.keys, tc);
    GivesUp(z, 3, s'.world.keys, s'.replicas[3], round, voted, tc);
    s' := Handles(z, s', 3, LocalTimeoutEvent(s'.replicas[3].pacemaker.epoch));
  }

  lemma BothEnter(z: Setup, s: SystemState, round: Round, voted: Round, tc: Option<TimeoutCert>)
    returns (s': SystemState)
    requires z.bad == 2 && Both(z, s, round, voted, tc) && 0 < round < 3 && VerifyTC(s.world.keys, Some(TC(round)))
    ensures Both(z, s', round + 1, voted, Some(TC(round))) && Grows(s.world.keys, s'.world.keys)
  {
    hide HandleTimeout;
    hide Start;
    hide Voter;
    hide Reached;
    hide VerifyTC;
    hide VerifyTimeout;
    hide StatementDigest;
    hide TC;
    Enters(z, 0, s.world.keys, s.replicas[0], round, voted, tc);
    TimeoutVerifies(s, round);
    s' := Handles(z, s, 0, TimeoutEvent(T(round)));
    VerifyTCGrows(s.world.keys, s'.world.keys, Some(TC(round)));
    Enters(z, 3, s'.world.keys, s'.replicas[3], round, voted, tc);
    TimeoutVerifies(s', round);
    s' := Handles(z, s', 3, TimeoutEvent(T(round)));
  }

  /** Give up `round` and enter the next. */
  lemma BothMoveOn(z: Setup, s: SystemState, round: Round, voted: Round, tc: Option<TimeoutCert>)
    returns (s': SystemState)
    requires z.bad == 2 && Both(z, s, round, voted, tc) && voted <= round && 0 < round < 3 && VerifyTC(s.world.keys, tc)
    requires round == 1 || (tc.Some? && Succ(tc.value.round) == round)
    ensures Both(z, s', round + 1, round, Some(TC(round))) && Grows(s.world.keys, s'.world.keys)
    ensures VerifyTC(s'.world.keys, Some(TC(round)))
  {
    hide Start;
    hide Voter;
    hide Reached;
    hide VerifyTC;
    hide StatementDigest;
    hide TC;
    var s1 := BothGiveUp(z, s, round, voted, tc);
    TCVerifies(s1, round, tc);
    s' := BothEnter(z, s1, round, round, tc);
    VerifyTCGrows(s1.world.keys, s'.world.keys, Some(TC(round)));
  }

  lemma BothVote4(z: Setup, s: SystemState, tc: Option<TimeoutCert>) returns (s': SystemState)
    requires z.bad == 2 && Both(z, s, 3, 3, tc) && VerifyTC(s.world.keys, Some(TC(3)))
    ensures Frame(z, s') && s'.replicas[z.third] == s.replicas[z.third] && Grows(s.world.keys, s'.world.keys)
    ensures BothSigned(s', Voted(B4(), Some(TC(3)), Ballot4()))
  {
    hide HandleProposal;
    hide Start;
    hide Voter;
    hide Reached;
    hide VerifyTC;
    hide VerifyProposal;
    hide StatementDigest;
    hide B4;
    hide P4;
    hide TC;
    hide Ballot4;
    VotesB4(z, 0, s.world.keys, s.replicas[0], tc);
    P4Verifies(s);
    s' := Handles(z, s, 0, ProposalEvent(P4()));
    VerifyTCGrows(s.world.keys, s'.world.keys, Some(TC(3)));
    VotesB4(z, 3, s'.world.keys, s'.replicas[3], tc);
    P4Verifies(s');
    s' := Handles(z, s', 3, ProposalEvent(P4()));
  }

  /** Replicas 2 and 3 certify round 4 while replica 1 has seen nothing. */
  lemma OthersMoveOn(z: Setup) returns (s: SystemState)
    requires z.Sane() && z.bad == 2
    ensures Frame(z, s) && s.replicas[z.third] == Start(z.Cfg(1), SIGNED).replica
    ensures BothSigned(s, Voted(B1(), None, Ballot1())) && BothSigned(s, Voted(B4(), Some(TC(3)), Ballot4()))
  {
    hide Start;
    hide Voter;
    hide Reached;
    hide VerifyTC;
    hide StatementDigest;
    hide B1;
    hide B4;
    hide TC;
    hide Ballot1;
    hide Ballot4;
    s := AllStart(z);
    s := BothVote1(z, s);
    NoTCVerifies(s.world.keys);
    s := BothMoveOn(z, s, 1, 1, None);
    s := BothMoveOn(z, s, 2, 1, Some(TC(1)));
    s := BothGiveUp(z, s, 3, 2, Some(TC(2)));
    TCVerifies(s, 3, Some(TC(2)));
    s := BothVote4(z, s, Some(TC(2)));
  }

  /** Two of the votes for round 1 reach replica 1. */
  lemma LeaderCounts(z: Setup, s: SystemState) returns (s': SystemState)
    requires z.bad == 2 && Frame(z, s) && s.replicas[z.third] == Start(z.Cfg(1), SIGNED).replica
    requires BothSigned(s, Voted(B1(), None, Ballot1()))
    ensures Frame(z, s') && Grows(s.world.keys, s'.world.keys)
    ensures Lagging(s'.replicas[1], LagTree([Sig(0), Sig(3)], {(1, 0), (1, 3)}))
  {
    hide HandleVote;
    hide Start;
    hide Reached;
    hide VerifyVote;
    hide VerifyQC;
    hide StatementDigest;
    hide B1;
    hide Ballot1;
    hide LagTree;
    Starts(z, 1);
    FirstVote(z, s.replicas[1]);
    GenesisVerifies(s.world.keys);
    Vote1Verifies(s, 0, GENESIS_QC);
    s' := Handles(z, s, 1, VoteEvent(Vote1(0, GENESIS_QC)));
    SecondVote(z, s'.replicas[1]);
    GenesisVerifies(s'.world.keys);
    Vote1Verifies(s', 3, GENESIS_QC);
    s' := Handles(z, s', 1, VoteEvent(Vote1(3, GENESIS_QC)));
  }

  ghost function LastAction(): Action { Handle(1, VoteEvent(Vote1(2, Cert4())), SIGNED) }

  /** The faulty replica's vote makes it three. */
  lemma LeaderProposes(z: Setup, s: SystemState) returns (p: ProposalMsg)
    requires z.bad == 2 && Frame(z, s) && Lagging(s.replicas[1], LagTree([Sig(0), Sig(3)], {(1, 0), (1, 3)}))
    requires BothSigned(s, Voted(B4(), Some(TC(3)), Ballot4()))
    ensures Enabled(z.Net(), s, LastAction())
    ensures Proposal(p) in OutcomeOf(z.Net(), s, LastAction()).sent
    ensures p.block.round == 2 && QCRound(p.block.qc) == 4
  {
    hide HandleVote;
    hide VerifyVote;
    hide VerifyQC;
    hide StatementDigest;
    hide LagTree;
    hide Reached;
    hide B4;
    hide TC;
    hide Ballot4;
    hide Vote1;
    hide Cert4;
    Cert4Verifies(z, s);
    Vote1Verifies(s, 2, Cert4());
    p := ThirdVote(z, s.replicas[1]);
  }

  /** The exception is real: there is a run, of replicas configured as the constructor configures them
      and whatever leaders the reputation scheme would elect, whose last step is a correct leader's, on a
      verified vote, and sends a proposal that no replica ever accepts. A vote's commit certificate
      raises highQC without entering its round. */
  lemma LaggingLeaderProposesInVain(elect: (QuorumCert, seq<Block>) -> Option<Id>, history: nat)
    returns (net: Network, states: seq<SystemState>, actions: seq<Action>, p: ProposalMsg)
    requires history >= 1
    ensures ValidNetwork(net) && Deployed(net)
    ensures forall r :: r in net.configs ==> net.configs[r].elect == elect && net.configs[r].history == history
    ensures IsRun(net, states, actions) && |actions| > 0
    ensures Proposal(p) in OutcomeOf(net, states[|actions| - 1], actions[|actions| - 1]).sent
    ensures forall k :: !VerifyProposal(k, p)
  {
    hide OutcomeOf;
    hide Enabled;
    hide Reached;
    hide HasSigned;
    hide LagTree;
    hide LastAction;
    hide Start;
    hide Deployed;
    var z := Setup(2, 1, elect, history);
    net := z.Net();
    SetupIsValid(z);
    var s := OthersMoveOn(z);
    var s' := LeaderCounts(z, s);
    StillSigned(s, s', Voted(B4(), Some(TC(3)), Ballot4()));
    p := LeaderProposes(z, s');
    states, actions := RunTo(net, s', LastAction());
  }
}
