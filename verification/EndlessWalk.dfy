// A run that brings a correct replica to a step whose reputation walk never ends. Replica 1 is faulty.
// Replicas 0 and 3 certify a block in round 1 and one over it in round 2. Replica 2 fetches the first
// block in a copy whose certificate names the block itself as the next stop of the walk, and is then
// handed the second certificate twice in one proposal: the first reading commits the copy and enters
// round 3, the second elects.
module EndlessWalk {
  import opened Wire
  import opened Hashing
  import opened Verification
  import opened Chains
  import opened LedgerModel
  import opened Arrival
  import opened SafetyRules
  import opened TreeModel
  import opened ReplicaModel
  import opened System
  import opened Outbound
  import opened Election
  import opened Walks
  import opened Scenario

  // ------------------------------------------------------------------------ the messages

  ghost function C1(): QuorumCert { CertBy(1, Ballot1()) }

  ghost function B2(): Block { NewBlock(1, 2, [], Some(C1())) }

  ghost function P2(): ProposalMsg { ProposalMsg(B2(), None, None, 1, Sig(1)) }

  ghost function Ballot2(): Ballot { Cast(B2(), Replay(ExecuteHash, B1().id)) }

  ghost function C2(): QuorumCert { CertBy(1, Ballot2()) }

  ghost function P3(): ProposalMsg { ProposalMsg(NewBlock(1, 3, [], Some(C2())), None, Some(C2()), 1, Sig(1)) }

  function Copy(): Block { B1().(qc := Some(GENESIS_QC.(voteInfo := GENESIS_QC.voteInfo.(parentId := B1().id)))) }

  lemma Ids()
    ensures ValidBlockId(B1()) && ValidHash(B1().id) && ParentId(B1()) == GENESIS_BLOCK.id
            && B1().id != GENESIS_BLOCK.id
    ensures ValidBlockId(Copy()) && ParentId(Copy()) == GENESIS_BLOCK.id && Copy().id == B1().id
    ensures ValidHash(GENESIS_BLOCK.id)
  {
    hide BlockPreimage;
    var _ := SelfNaming(B1());
  }

  // ------------------------------------------------------------------- what verifies when

  lemma C1Verifies(z: Setup, s: SystemState)
    requires z.Sane() && z.bad == 1 && Keys(z, s.world.keys) && BothSigned(s, Voted(B1(), None, Ballot1()))
    ensures VerifyQC(s.world.keys, C1())
  {
    Ids();
    hide BlockId;
    hide Cast;
    hide VerifyQC;
    hide StatementDigest;
    StateIsSized(GENESIS_BLOCK.id);
    CertVerifies(z, s, B1(), None, Replay(ExecuteHash, GENESIS_BLOCK.id));
  }

  lemma C2Verifies(z: Setup, s: SystemState)
    requires z.Sane() && z.bad == 1 && Keys(z, s.world.keys) && BothSigned(s, Voted(B2(), None, Ballot2()))
    ensures VerifyQC(s.world.keys, C2())
  {
    Ids();
    hide BlockId;
    hide VoteInfoHash;
    hide VerifyQC;
    hide StatementDigest;
    StateIsSized(B1().id);
    assert ParentId(B2()) == B1().id && QCRound(B2().qc) == 1;
    CertVerifies(z, s, B2(), None, Replay(ExecuteHash, B1().id));
  }

  lemma P2Verifies(k: Keyring)
    requires k.faulty == {1} && VerifyQC(k, C1())
    ensures VerifyProposal(k, P2())
  {
    hide BlockId;
    hide VoteInfoHash;
    hide VerifyQC;
    hide VerifyTC;
    NoTCVerifies(k);
    assert QCRound(B2().qc) == 1;
  }

  lemma P3Verifies(k: Keyring)
    requires k.faulty == {1} && VerifyQC(k, C2())
    ensures VerifyProposal(k, P3())
  {
    hide BlockId;
    hide VoteInfoHash;
    hide VerifyQC;
    hide VerifyTC;
    NoTCVerifies(k);
    assert QCRound(P3().block.qc) == 2;
  }

  // ------------------------------------------------------------------- how a voter steps

  /** Reading the first certificate: nothing to commit yet, and round 2. */
  lemma ReadsC1(cfg: Config, r: Replica)
    requires Voter(r, 1, 1, None)
    ensures var r1 := ProcessCertificateQC(cfg, r, Some(C1())).0;
            && r1.ledger == r.ledger && r1.leaders == map[] && r1.counters == r.counters
            && r1.pacemaker.currentRound == 2
  {
    hide BlockId;
    hide Replay;
    hide VoteInfoHash;
    hide Reaches;
    hide ProcessQC;
  }

  lemma VotesB2(z: Setup, v: Id, k: Keyring, r: Replica)
    requires Voter(r, 1, 1, None) && B1().id in r.ledger.pending && VerifyQC(k, C1())
    ensures Voted(B2(), None, Ballot2()) in HandleProposal(z.Cfg(v), k, r, P2(), SIGNED).signed
  {
    hide BlockId;
    hide Replay;
    hide VerifyQC;
    hide VerifyTC;
    hide VoteInfoHash;
    hide ProcessCertificateQC;
    hide Reaches;
    hide C1;
    NoTCVerifies(k);
    ReadsC1(z.Cfg(v), r);
    NothingToRead(z.Cfg(v), ProcessCertificateQC(z.Cfg(v), r, Some(C1())).0);
    C1Says();
    PendsUnlessMoved(r.ledger, B2());
  }

  lemma C1Says()
    ensures C1().voteInfo.id == B1().id && C1().voteInfo.round == 1
  {
    hide BlockId;
    hide VoteInfoHash;
    hide Replay;
  }

  // ------------------------------------------------------------- how the third replica steps

  /** What fetching the copy leaves behind. */
  ghost predicate Fetched(r: Replica) {
    r.ledger == Speculate(NEW_LEDGER, Copy()) && r.leaders == map[] && r.pacemaker.currentRound == 1
  }

  lemma Fetches(r: Replica)
    requires r.ledger == NEW_LEDGER && r.leaders == map[] && r.pacemaker.currentRound == 1
    ensures Fetched(Insert(r, Copy()).replica)
  {
    hide Speculate;
    hide LedgerModel.Missing;
  }

  /** The first reading of the second certificate commits the copy and enters round 3. */
  lemma ReadsC2(cfg: Config, r: Replica)
    requires Fetched(r)
    ensures var r1 := ProcessCertificateQC(cfg, r, Some(C2())).0;
            r1.ledger.log == [GENESIS_BLOCK, Copy()] && CommitId(r1.ledger) == B1().id && r1.pacemaker.currentRound == 3
  {
    Ids();
    hide BlockId;
    hide Replay;
    hide VoteInfoHash;
    hide Speculate;
    hide Commit;
    hide ProcessQC;
    hide Copy;
    CommitsAlone(Copy());
    C2Says();
    hide C2;
  }

  lemma C2Says()
    ensures C2().voteInfo.parentId == B1().id && C2().voteInfo.parentRound == 1 && C2().voteInfo.round == 2
    ensures Commits(C2().ledgerCommitInfo)
  {
    hide BlockId;
    hide VoteInfoHash;
    ReplayIsDigest(B1().id);
  }

  lemma ReplayIsDigest(h: Hash)
    ensures Replay(ExecuteHash, h).Sha?
  { }

  /** The second reading walks from the copy to itself. */
  lemma WalkCircles(cfg: Config, r: Replica, window: nat, exclude: nat)
    requires Fetched(r) && cfg.history >= 1 && exclude >= 2
    ensures !StepWalksEnd(cfg, window, exclude, r, ProposalEvent(P3()), SIGNED)
  {
    hide BlockId;
    hide Ends;
    hide ProcessCertificateQC;
    hide ProcessQC;
    hide C2;
    var r1 := ProcessCertificateQC(cfg, r, Some(C2())).0;
    ReadsC2(cfg, r);
    C2Says();
    assert ProcessTreeQC(r1, Some(C2())).ledger.log == [GENESIS_BLOCK, Copy()];
    var kept := Retained([GENESIS_BLOCK, Copy()], cfg.history);
    Ids();
    assert Circle(kept, Copy());
    CircleNeverEnds(kept, Copy(), C2(), window, exclude);
  }

  // ----------------------------------------------------------------------------- the run

  lemma BothVote2(z: Setup, s: SystemState) returns (s': SystemState)
    requires z.bad == 1 && Both(z, s, 1, 1, None) && BothSigned(s, Voted(B1(), None, Ballot1()))
    requires B1().id in s.replicas[0].ledger.pending && B1().id in s.replicas[3].ledger.pending
    ensures Frame(z, s') && s'.replicas[z.third] == s.replicas[z.third] && BothSigned(s', Voted(B2(), None, Ballot2()))
  {
    hide HandleProposal;
    hide Start;
    hide Voter;
    hide Reached;
    hide VerifyProposal;
    hide VerifyQC;
    hide StatementDigest;
    hide B1;
    hide B2;
    hide P2;
    hide C1;
    hide Ballot1;
    hide Ballot2;
    C1Verifies(z, s);
    VotesB2(z, 0, s.world.keys, s.replicas[0]);
    P2Verifies(s.world.keys);
    s' := Handles(z, s, 0, ProposalEvent(P2()));
    VerifyQCGrows(s.world.keys, s'.world.keys, C1());
    VotesB2(z, 3, s'.world.keys, s'.replicas[3]);
    P2Verifies(s'.world.keys);
    s' := Handles(z, s', 3, ProposalEvent(P2()));
  }

  lemma ThirdFetches(z: Setup, s: SystemState) returns (s': SystemState)
    requires z.bad == 1 && Frame(z, s) && s.replicas[z.third] == Start(z.Cfg(2), SIGNED).replica
    ensures Frame(z, s') && Grows(s.world.keys, s'.world.keys) && Fetched(s'.replicas[2])
  {
    hide Start;
    hide Reached;
    hide Insert;
    hide Fetched;
    hide StatementDigest;
    hide BlockId;
    hide Copy;
    Ids();
    Starts(z, 2);
    Fetches(s.replicas[2]);
    s' := Handles(z, s, 2, BlockEvent(Copy()));
  }

  lemma Approach(z: Setup) returns (s: SystemState)
    requires z.Sane() && z.bad == 1
    ensures Frame(z, s) && Fetched(s.replicas[2]) && VerifyQC(s.world.keys, C2())
  {
    hide Start;
    hide Voter;
    hide Reached;
    hide VerifyQC;
    hide Fetched;
    hide StatementDigest;
    hide B1;
    hide B2;
    hide Ballot1;
    hide Ballot2;
    s := AllStart(z);
    s := BothVote1(z, s);
    s := BothVote2(z, s);
    var s' := ThirdFetches(z, s);
    StillSigned(s, s', Voted(B2(), None, Ballot2()));
    s := s';
    C2Verifies(z, s);
  }

  /** There is a run, of replicas configured as the constructor configures them, that brings a correct
      replica to a verified proposal on which some walk never ends, for any window and any exclusion
      of two or more: the replica never returns from that step. */
  lemma WalkNeverEndsInSomeRun(elect: (QuorumCert, seq<Block>) -> Option<Id>, history: nat, window: nat, exclude: nat)
    returns (net: Network, states: seq<SystemState>, actions: seq<Action>)
    requires history >= 1 && exclude >= 2
    ensures ValidNetwork(net) && Deployed(net)
    ensures forall r :: r in net.configs ==> net.configs[r].elect == elect && net.configs[r].history == history
    ensures IsRun(net, states, actions) && |actions| > 0
    ensures var s, a := states[|actions| - 1], actions[|actions| - 1];
            a.Handle? && !StepWalksEnd(net.configs[a.who], window, exclude, s.replicas[a.who], a.event, a.inputs)
  {
    hide Reached;
    hide StepWalksEnd;
    hide VerifyProposal;
    hide VerifyQC;
    hide Fetched;
    hide Deployed;
    hide Next;
    hide P3;
    var z := Setup(1, 2, elect, history);
    net := z.Net();
    SetupIsValid(z);
    var s := Approach(z);
    P3Verifies(s.world.keys);
    WalkCircles(z.Cfg(2), s.replicas[2], window, exclude);
    states, actions := RunTo(net, s, Handle(2, ProposalEvent(P3()), SIGNED));
  }
}
