// Shared ground for the runs of LaggingLeader and EndlessWalk: four replicas, of which one is faulty and
// 0 and 3 are correct and always act alike; the first block, which replica 0 proposes on starting; and
// how runs are put together action by action.
module Scenario {
  import opened Wire
  import opened Hashing
  import opened Verification
  import opened Chains
  import opened LedgerModel
  import opened SafetyRules
  import opened TreeModel
  import opened ReplicaModel
  import opened System
  import opened Outbound
  import LeaderImpl
  import Quorums
  import Sorting

  // ----------------------------------------------------------------------- the replicas

  /** `bad` is the faulty replica, 1 or 2, and `third` the other of these two. */
  datatype Setup = Setup(bad: Id, third: Id, elect: (QuorumCert, seq<Block>) -> Option<Id>, history: nat) {
    ghost predicate Sane() { ((bad == 1 && third == 2) || (bad == 2 && third == 1)) && history >= 1 }

    predicate Correct(v: Id) { v == 0 || v == 3 || v == third }

    function Cfg(self: Id): Config { ConfigData(self, [0, 1, 2, 3], ExecuteHash, history, elect) }

    function Net(): Network {
      Network({0, 1, 2, 3}, {bad}, map[0 := Cfg(0), 3 := Cfg(3), third := Cfg(third)], ExecuteHash)
    }
  }

  /** Every configuration lists exactly the replica set, in the order the constructor of LeaderElection
      sorts it into, and retains at least one block. */
  ghost predicate Deployed(net: Network) {
    forall r :: r in net.configs ==>
      var cfg := net.configs[r];
      && Sorting.Ascending(LeaderImpl.IdKey, cfg.validators) && cfg.history >= 1
      && forall x :: x in cfg.validators <==> x in net.validators
  }

  lemma SetupIsValid(z: Setup)
    requires z.Sane()
    ensures ValidNetwork(z.Net()) && Deployed(z.Net())
  {
    hide ExecuteHash;
    hide StateIds;
    hide Deployed;
    StatesHaveSize();
    SetupIsDeployed(z);
    SetupConfigs(z);
    FourReplicas();
  }

  lemma FourReplicas()
    ensures |{0, 1, 2, 3}| == 4 && Quorums.Faulty(4) == 1
  { }

  lemma SetupConfigs(z: Setup)
    requires z.Sane()
    ensures z.Net().configs.Keys == z.Net().validators - z.Net().faulty
    ensures forall r :: r in z.Net().configs ==> z.Net().configs[r] == z.Cfg(r)
  {
    hide ExecuteHash;
    var keys := z.Net().configs.Keys;
    assert forall r :: r in keys <==> r == 0 || r == 3 || r == z.third;
    forall r ensures r in keys <==> r in z.Net().validators - z.Net().faulty { }
  }

  lemma SetupIsDeployed(z: Setup)
    requires z.Sane()
    ensures Deployed(z.Net())
  { }

  lemma StatesHaveSize()
    ensures StateIds(ExecuteHash)
  {
    hide HashField;
  }

  // ------------------------------------------------------------------------ the messages

  const SIGNED: Inputs := Inputs([], Some([]), Some([]), Some([]), Some([]))

  function Sig(i: Id): Signature { Signature(i, []) }

  function B1(): Block { NewBlock(0, 1, [], Some(GENESIS_QC)) }

  function P1(): ProposalMsg { ProposalMsg(B1(), None, Some(GENESIS_QC), 0, Sig(0)) }

  ghost function Info(b: Block): VoteInfo {
    VoteInfo(b.id, b.round, ParentId(b), QCRound(b.qc), Replay(ExecuteHash, b.id))
  }

  ghost function Cast(b: Block, state: Hash): Ballot {
    Ballot(Info(b), LedgerCommitInfo(state, VoteInfoHash(Info(b))))
  }

  ghost function Ballot1(): Ballot { Cast(B1(), Replay(ExecuteHash, GENESIS_BLOCK.id)) }

  /** The certificate replicas 0, 3 and the faulty one make, with the faulty one as its author. */
  function CertBy(bad: Id, ballot: Ballot): QuorumCert {
    QuorumCert(ballot.info, ballot.commit, [Sig(0), Sig(bad), Sig(3)], bad, Some(Sig(bad)))
  }

  // ---------------------------------------------------------------------- the run so far

  ghost predicate Reached(net: Network, s: SystemState) {
    exists states, actions :: IsRun(net, states, actions) && states[|actions|] == s
  }

  lemma ReachedInit(net: Network)
    ensures Reached(net, Init(net))
  {
    var none: seq<Action> := [];
    assert IsRun(net, [Init(net)], none) && [Init(net)][|none|] == Init(net);
  }

  lemma ExtendRun(net: Network, states: seq<SystemState>, actions: seq<Action>, a: Action)
    requires IsRun(net, states, actions) && Enabled(net, states[|actions|], a)
    ensures IsRun(net, states + [Next(net, states[|actions|], a)], actions + [a])
  {
    hide Enabled;
    hide Next;
    var more, acts := states + [Next(net, states[|actions|], a)], actions + [a];
    forall i | 0 <= i < |acts| ensures Enabled(net, more[i], acts[i]) && more[i + 1] == Next(net, more[i], acts[i]) {
      assert i < |actions| ==> more[i] == states[i] && more[i + 1] == states[i + 1] && acts[i] == actions[i];
    }
  }

  lemma ReachedNext(net: Network, s: SystemState, a: Action)
    requires Reached(net, s) && Enabled(net, s, a)
    ensures Reached(net, Next(net, s, a))
  {
    hide Enabled;
    hide Next;
    var states, actions :| IsRun(net, states, actions) && states[|actions|] == s;
    ExtendRun(net, states, actions, a);
    assert (states + [Next(net, s, a)])[|actions + [a]|] == Next(net, s, a);
  }

  /** A run that ends with `a` in `s`. */
  lemma RunTo(net: Network, s: SystemState, a: Action) returns (states: seq<SystemState>, actions: seq<Action>)
    requires Reached(net, s) && Enabled(net, s, a)
    ensures IsRun(net, states, actions) && |actions| > 0
    ensures states[|actions| - 1] == s && actions[|actions| - 1] == a
  {
    hide Enabled;
    hide Next;
    var before, acts :| IsRun(net, before, acts) && before[|acts|] == s;
    ExtendRun(net, before, acts, a);
    states, actions := before + [Next(net, s, a)], acts + [a];
  }

  ghost predicate HasSigned(s: SystemState, r: Id, st: Statement) { (r, StatementDigest(st)) in s.world.keys.signed }

  /** One action: the others stand still, and what was signed stays signed. */
  lemma Act(net: Network, s: SystemState, a: Action) returns (s': SystemState)
    requires ValidNetwork(net) && Reached(net, s) && Enabled(net, s, a)
    ensures Reached(net, s') && s' == Next(net, s, a)
    ensures s'.replicas == s.replicas[a.who := OutcomeOf(net, s, a).replica]
    ensures Grows(s.world.keys, s'.world.keys)
    ensures forall st :: st in OutcomeOf(net, s, a).signed ==> HasSigned(s', a.who, st)
  {
    hide OutcomeOf;
    hide StatementDigest;
    s' := Next(net, s, a);
    ReachedNext(net, s, a);
    forall st | st in OutcomeOf(net, s, a).signed ensures HasSigned(s', a.who, st) {
      RecordedIsSigned(s.world, a.who, OutcomeOf(net, s, a).signed, st);
    }
  }

  ghost predicate BothSigned(s: SystemState, st: Statement) { HasSigned(s, 0, st) && HasSigned(s, 3, st) }

  lemma StillSigned(s: SystemState, s': SystemState, st: Statement)
    requires Grows(s.world.keys, s'.world.keys) && BothSigned(s, st)
    ensures BothSigned(s', st)
  { }

  // ------------------------------------------------------------------- what verifies when

  ghost predicate Keys(z: Setup, k: Keyring) { k.validators == {0, 1, 2, 3} && k.faulty == {z.bad} }

  lemma InfoIsSized(b: Block, state: Hash)
    requires ValidBlockId(b) && ValidHash(ParentId(b)) && ValidHash(state)
    ensures ValidVote(Cast(b, state).info, Cast(b, state).commit)
  {
    hide BlockPreimage;
    hide Replay;
    StatesHaveSize();
    ReplayIsHash(ExecuteHash, b.id);
    assert b.id.Sha?;
  }

  lemma GenesisVerifies(k: Keyring)
    ensures VerifyQC(k, GENESIS_QC) && ValidHash(GENESIS_BLOCK.id)
  {
    hide BlockPreimage;
  }

  lemma StateIsSized(h: Hash)
    ensures ValidHash(Replay(ExecuteHash, h))
  {
    StatesHaveSize();
    ReplayIsHash(ExecuteHash, h);
  }

  lemma CertVerifies(z: Setup, s: SystemState, b: Block, tc: Option<TimeoutCert>, state: Hash)
    requires z.Sane() && Keys(z, s.world.keys) && BothSigned(s, Voted(b, tc, Cast(b, state)))
    requires ValidBlockId(b) && ValidHash(ParentId(b)) && ValidHash(state) && b.round > 0
    requires state == ZERO_HASH || Consecutive(b.round, QCRound(b.qc))
    ensures VerifyQC(s.world.keys, CertBy(z.bad, Cast(b, state)))
  {
    hide BlockId;
    hide Replay;
    hide VoteInfoHash;
    hide LedgerCommitDigest;
    hide QcSigsDigest;
    InfoIsSized(b, state);
  }

  // ------------------------------------------------------------------- how a voter steps

  ghost predicate Voter(r: Replica, round: Round, voted: Round, tc: Option<TimeoutCert>) {
    && r.tree.highQC == GENESIS_QC && r.tree.highCommitQC == GENESIS_QC && r.leaders == map[]
    && r.ledger.log == [GENESIS_BLOCK] && r.counters == Counters(voted, 0)
    && r.pacemaker.currentRound == round && r.pacemaker.lastRoundTC == tc
    && forall x :: x in r.pacemaker.timeouts ==> x <= round
  }

  /** The genesis certificate is never news. */
  lemma GenesisIsOld(cfg: Config, r: Replica)
    requires r.tree.highQC == GENESIS_QC && r.pacemaker.currentRound >= 1
    ensures ProcessTreeQC(r, Some(GENESIS_QC)) == r && ProcessCertificateQC(cfg, r, Some(GENESIS_QC)) == (r, false)
  {
    hide BlockId;
  }

  lemma NothingToRead(cfg: Config, r: Replica)
    ensures ProcessCertificateQC(cfg, r, None) == (r, false)
  { }

  lemma Starts(z: Setup, v: Id)
    requires v in {0, 1, 2, 3}
    ensures var o := Start(z.Cfg(v), SIGNED);
            && Voter(o.replica, 1, 0, None) && o.replica.tree == NEW_TREE && o.replica.ledger == NEW_LEDGER
            && (v == 0 ==> Proposed(B1()) in o.signed)
  {
    hide BlockId;
  }

  lemma VotesB1(z: Setup, v: Id, k: Keyring, r: Replica)
    requires Voter(r, 1, 0, None)
    ensures var o := HandleProposal(z.Cfg(v), k, r, P1(), SIGNED);
            && Voter(o.replica, 1, 1, None) && Voted(B1(), None, Ballot1()) in o.signed
            && B1().id in o.replica.ledger.pending
  {
    hide BlockId;
    hide Replay;
    hide VerifyQC;
    hide VerifyTC;
    hide VoteInfoHash;
    hide ProcessCertificateQC;
    hide Reaches;
    GenesisVerifies(k);
    NoTCVerifies(k);
    GenesisIsOld(z.Cfg(v), r);
    assert Absorb(z.Cfg(v), r, P1().block.qc, P1().highCommitQc, P1().lastRoundTc) == r;
  }

  lemma P1Verifies(z: Setup, s: SystemState)
    requires HasSigned(s, 0, Proposed(B1()))
    ensures VerifyProposal(s.world.keys, P1())
  {
    hide BlockId;
    hide VerifyTC;
    hide VerifyQC;
    GenesisVerifies(s.world.keys);
    NoTCVerifies(s.world.keys);
  }

  // ----------------------------------------------------------------------------- the run

  ghost predicate Frame(z: Setup, s: SystemState) {
    && z.Sane() && Reached(z.Net(), s) && Keys(z, s.world.keys)
    && 0 in s.replicas && 3 in s.replicas && z.third in s.replicas
    && 0 in s.world.logs && 3 in s.world.logs && z.third in s.world.logs
  }

  /** Replicas 0 and 3 are as described, and the third correct one has only started. */
  ghost predicate Both(z: Setup, s: SystemState, round: Round, voted: Round, tc: Option<TimeoutCert>) {
    && Frame(z, s) && s.replicas[z.third] == Start(z.Cfg(z.third), SIGNED).replica
    && Voter(s.replicas[0], round, voted, tc) && Voter(s.replicas[3], round, voted, tc)
  }

  /** One event handled by a started replica. */
  lemma Handles(z: Setup, s: SystemState, v: Id, e: Event) returns (s': SystemState)
    requires Frame(z, s) && z.Correct(v) && VerifiedEvent(s.world.keys, e)
    ensures Frame(z, s') && Grows(s.world.keys, s'.world.keys)
    ensures var o := Step(z.Cfg(v), s.world.keys, s.replicas[v], e, SIGNED);
            s'.replicas == s.replicas[v := o.replica] && forall st :: st in o.signed ==> HasSigned(s', v, st)
  {
    hide Step;
    hide Start;
    hide VerifiedEvent;
    hide Reached;
    hide ValidNetwork;
    hide HasSigned;
    hide Deployed;
    SetupIsValid(z);
    s' := Act(z.Net(), s, Handle(v, e, SIGNED));
  }

  lemma StartsUp(z: Setup, s: SystemState, v: Id) returns (s': SystemState)
    requires z.Sane() && Reached(z.Net(), s) && z.Correct(v) && v !in s.replicas && v in s.world.logs
    ensures Reached(z.Net(), s') && Grows(s.world.keys, s'.world.keys) && s'.world.logs.Keys == s.world.logs.Keys
    ensures var o := Start(z.Cfg(v), SIGNED);
            s'.replicas == s.replicas[v := o.replica] && forall st :: st in o.signed ==> HasSigned(s', v, st)
  {
    hide Start;
    hide Step;
    hide Reached;
    hide ValidNetwork;
    hide HasSigned;
    hide Deployed;
    SetupIsValid(z);
    s' := Act(z.Net(), s, StartUp(v, SIGNED));
  }

  lemma AllStart(z: Setup) returns (s: SystemState)
    requires z.Sane()
    ensures Both(z, s, 1, 0, None) && HasSigned(s, 0, Proposed(B1()))
  {
    hide Start;
    hide Reached;
    hide StatementDigest;
    hide Voter;
    hide B1;
    ReachedInit(z.Net());
    Starts(z, 0);
    Starts(z, 3);
    s := Init(z.Net());
    s := StartsUp(z, s, z.third);
    s := StartsUp(z, s, 0);
    s := StartsUp(z, s, 3);
  }

  lemma BothVote1(z: Setup, s: SystemState) returns (s': SystemState)
    requires Both(z, s, 1, 0, None) && HasSigned(s, 0, Proposed(B1()))
    ensures Both(z, s', 1, 1, None) && BothSigned(s', Voted(B1(), None, Ballot1()))
    ensures B1().id in s'.replicas[0].ledger.pending && B1().id in s'.replicas[3].ledger.pending
  {
    hide HandleProposal;
    hide Start;
    hide Voter;
    hide Reached;
    hide VerifyProposal;
    hide StatementDigest;
    hide B1;
    hide P1;
    hide Ballot1;
    VotesB1(z, 0, s.world.keys, s.replicas[0]);
    P1Verifies(z, s);
    s' := Handles(z, s, 0, ProposalEvent(P1()));
    VotesB1(z, 3, s'.world.keys, s'.replicas[3]);
    P1Verifies(z, s');
    s' := Handles(z, s', 3, ProposalEvent(P1()));
  }
}
