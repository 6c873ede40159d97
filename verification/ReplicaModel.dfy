// One replica as a function of its events: the handlers of diem/core.go over the values of the
// five modules. Everything the environment decides (payloads, what a signing call returns) is an
// argument; everything the replica does (messages, signatures) is in the outcome.
module ReplicaModel {
  import opened Wire
  import opened Hashing
  import opened Quorums
  import opened Verification
  import opened Chains
  import opened LedgerModel
  import opened SafetyRules
  import opened TreeModel
  import P = PacemakerModel

  /** `elect` is the reputation election over the committed blocks the ledger retains. Nothing
      about safety depends on it, so it is any function. */
  datatype ConfigData = ConfigData(self: Id, validators: seq<Id>, execute: Execution, history: nat,
                                   elect: (QuorumCert, seq<Block>) -> Option<Id>)
  {
    function Quorum(): nat { QuorumSize(|validators|) }
    function Tolerated(): nat { Faulty(|validators|) }
  }

  type Config = c: ConfigData | |c.validators| > 0
    witness ConfigData(0, [0], ExecuteHash, 1, (q: QuorumCert, s: seq<Block>) => None)

  datatype Replica = Replica(ledger: Ledger, tree: Tree, counters: Counters, pacemaker: P.Pacemaker,
                             leaders: map<Round, Id>)

  const NEW_REPLICA: Replica :=
    Replica(NEW_LEDGER, NEW_TREE, Counters(0, 0), P.NEW_PACEMAKER, map[])

  /** What the environment supplies to one step. A signature is None when signing failed. */
  datatype Inputs = Inputs(txns: Payload, voteSig: Option<Blob>, timeoutSig: Option<Blob>,
                           authorSig: Option<Blob>, proposalSig: Option<Blob>)

  datatype Message =
    | Vote(vote: VoteMsg, to: Id)
    | Proposal(proposal: ProposalMsg)
    | Timeout(timeout: TimeoutMsg)
    | RequestBlock(id: Hash)
    | ReplyBlock(block: Option<Block>)

  datatype Event =
    | ProposalEvent(proposal: ProposalMsg)
    | VoteEvent(vote: VoteMsg)
    | TimeoutEvent(timeout: TimeoutMsg)
    | LocalTimeoutEvent(epoch: nat)
    | BlockEvent(block: Block)
    | BlockRequestEvent(id: Hash)

  datatype Outcome = Outcome(replica: Replica, sent: seq<Message>, signed: seq<Statement>)

  /** What `o` did after `sent` and `signed`. */
  ghost function After(sent: seq<Message>, signed: seq<Statement>, o: Outcome): Outcome {
    Outcome(o.replica, sent + o.sent, signed + o.signed)
  }

  // ------------------------------------------------------------------------- leaders

  function ExpectedLeader(validators: seq<Id>, leaders: map<Round, Id>, round: Round): Id
    requires |validators| > 0
  {
    if round in leaders then leaders[round] else validators[(round / 2) % |validators|]
  }

  function GetLeader(cfg: Config, leaders: map<Round, Id>, round: Round): Id {
    ExpectedLeader(cfg.validators, leaders, round)
  }

  /** The guard of leader.go:74: only such a certificate leads to an election. */
  predicate Fresh(r: Replica, qc: QuorumCert) {
    Succ(qc.voteInfo.parentRound) == qc.voteInfo.round && Succ(qc.voteInfo.round) == r.pacemaker.currentRound
  }

  ghost function UpdateLeaders(cfg: Config, r: Replica, qc: QuorumCert): map<Round, Id> {
    var current := r.pacemaker.currentRound;
    if !Fresh(r, qc) then r.leaders
    else
      var elected := cfg.elect(qc, Retained(r.ledger.log, cfg.history));
      var leaders := if elected.Some? then r.leaders[Succ(current) := elected.value] else r.leaders;
      map x | x in leaders && x >= current :: leaders[x]
  }

  // -------------------------------------------------------------------- certificates

  /** blocktree.go:82, with the commit it triggers. */
  ghost function ProcessTreeQC(r: Replica, qc: Option<QuorumCert>): Replica {
    if qc.None? then r
    else r.(ledger := if Commits(qc.value.ledgerCommitInfo) then Commit(r.ledger, qc.value.voteInfo.parentId)
                      else r.ledger,
            tree := ProcessQC(r.tree, qc.value))
  }

  ghost function ProcessCertificateQC(cfg: Config, r: Replica, qc: Option<QuorumCert>): (Replica, bool) {
    if qc.None? then (r, false)
    else
      var r1 := ProcessTreeQC(r, qc);
      var r2 := r1.(leaders := UpdateLeaders(cfg, r1, qc.value));
      var advanced := P.AdvanceQC(r2.pacemaker, qc.value);
      (r2.(pacemaker := advanced.0), advanced.1)
  }

  ghost function AdvanceRoundTC(r: Replica, tc: Option<TimeoutCert>): Replica {
    r.(pacemaker := P.AdvanceTC(r.pacemaker, tc).0)
  }

  /** The three certificates a proposal or a timeout carries, in the order they are read. */
  ghost function Absorb(cfg: Config, r: Replica, qc: Option<QuorumCert>, commitQC: Option<QuorumCert>,
                        tc: Option<TimeoutCert>): Replica {
    AdvanceRoundTC(ProcessCertificateQC(cfg, ProcessCertificateQC(cfg, r, qc).0, commitQC).0, tc)
  }

  // ------------------------------------------------------------------------ handlers

  ghost function Insert(r: Replica, b: Block): Outcome {
    var l := Speculate(r.ledger, b);
    var missing := LedgerModel.Missing(l, b.id);
    Outcome(r.(ledger := l, tree := InsertBlock(r.tree, b)),
            if missing.Some? then [RequestBlock(missing.value)] else [], [])
  }

  ghost function MakeVote(cfg: Config, k: Keyring, r: Replica, b: Block, tc: Option<TimeoutCert>,
                          sig: Option<Blob>): Outcome {
    var ballot := BallotFor(cfg.execute, k, r.counters, r.ledger, b, tc);
    if ballot.None? then Outcome(r, [], [])
    else
      var r' := r.(counters := AfterVote(r.counters, b));
      if sig.None? then Outcome(r', [], [])
      else
        var vote := VoteMsg(ballot.value.info, ballot.value.commit, Some(r.tree.highCommitQC), cfg.self,
                            Signature(cfg.self, sig.value));
        Outcome(r', [Vote(vote, GetLeader(cfg, r.leaders, Succ(r.pacemaker.currentRound)))],
                [Voted(b, tc, ballot.value)])
  }

  ghost function HandleProposal(cfg: Config, k: Keyring, r: Replica, p: ProposalMsg, inputs: Inputs): Outcome {
    var r1 := Absorb(cfg, r, p.block.qc, p.highCommitQc, p.lastRoundTc);
    var round := r1.pacemaker.currentRound;
    var leader := GetLeader(cfg, r1.leaders, round);
    if p.block.round != round || p.sender != leader || p.block.author != leader then Outcome(r1, [], [])
    else
      var inserted := Insert(r1, p.block);
      After(inserted.sent, inserted.signed,
            MakeVote(cfg, k, inserted.replica, p.block, p.lastRoundTc, inputs.voteSig))
  }

  ghost function LocalTimeoutRound(cfg: Config, k: Keyring, r: Replica, sig: Option<Blob>): Outcome {
    var p := P.StartTimer(r.pacemaker, r.pacemaker.currentRound);
    var r1 := r.(pacemaker := p);
    if !MayTimeout(k, r.counters, p.currentRound, r.tree.highQC, p.lastRoundTC) then Outcome(r1, [], [])
    else
      var r2 := r1.(counters := AfterTimeout(r.counters, p.currentRound));
      if sig.None? then Outcome(r2, [], [])
      else
        var info := TimeoutInfo(p.currentRound, Some(r.tree.highQC), cfg.self, Signature(cfg.self, sig.value));
        var msg := TimeoutMsg(info, JustifyingTC(r.tree.highQC.voteInfo.round, p.currentRound, p.lastRoundTC),
                              Some(r.tree.highCommitQC));
        Outcome(r2, [Timeout(msg)], [TimedOut(p.currentRound, r.tree.highQC, p.lastRoundTC)])
  }

  /** pacemaker.go:127. The certificate it completed, if any, is the second component. */
  ghost function ProcessRemoteTimeout(cfg: Config, k: Keyring, r: Replica, info: TimeoutInfo,
                                      sig: Option<Blob>): (Outcome, Option<TimeoutCert>) {
    if P.Ignored(r.pacemaker, info) then (Outcome(r, [], []), None)
    else
      var b := P.BucketWith(r.pacemaker, info);
      var r1 := r.(pacemaker := P.Collect(r.pacemaker, info));
      var o := if |b.senders| == cfg.Tolerated() + 1
               then LocalTimeoutRound(cfg, k, r1.(pacemaker := P.Stop(r1.pacemaker)), sig)
               else Outcome(r1, [], []);
      (o, if |b.senders| == cfg.Quorum() then Some(P.TimeoutCertOf(info.round, b)) else None)
  }

  ghost function ProcessNewRound(cfg: Config, r: Replica, lastTC: Option<TimeoutCert>, inputs: Inputs): Outcome {
    var round := r.pacemaker.currentRound;
    if GetLeader(cfg, r.leaders, round) != cfg.self || inputs.proposalSig.None? then Outcome(r, [], [])
    else
      var b := NewBlock(cfg.self, round, inputs.txns, Some(r.tree.highQC));
      var msg := ProposalMsg(b, JustifyingTC(r.tree.highQC.voteInfo.round, round, lastTC),
                             Some(r.tree.highCommitQC), cfg.self, Signature(cfg.self, inputs.proposalSig.value));
      Outcome(r, [Proposal(msg)], [Proposed(b)])
  }

  ghost function HandleTimeout(cfg: Config, k: Keyring, r: Replica, m: TimeoutMsg, inputs: Inputs): Outcome {
    var r1 := Absorb(cfg, r, m.tmoInfo.highQc, m.highCommitQc, m.lastRoundTc);
    var (o, tc) := ProcessRemoteTimeout(cfg, k, r1, m.tmoInfo, inputs.timeoutSig);
    if tc.None? then o
    else After(o.sent, o.signed, ProcessNewRound(cfg, AdvanceRoundTC(o.replica, tc), tc, inputs))
  }

  const MAX_ROUND_LEAD: nat := 4

  function AddLead(r: Round): Round {
    if r + MAX_ROUND_LEAD <= MAX_U64 then r + MAX_ROUND_LEAD else r + MAX_ROUND_LEAD - MAX_U64 - 1
  }

  /** core.go:275: a vote too far ahead of, or behind, the current round. */
  predicate OutOfWindow(current: Round, round: Round) {
    round > AddLead(current) || Succ(round) < current
  }

  ghost function HandleVote(cfg: Config, r: Replica, m: VoteMsg, inputs: Inputs): Outcome {
    if OutOfWindow(r.pacemaker.currentRound, m.voteInfo.round) then Outcome(r, [], [])
    else
      var r1 := ProcessTreeQC(r, m.highCommitQc);
      var (tree, qc) := ProcessVote(cfg.self, cfg.Quorum(), r1.tree, m, inputs.authorSig);
      var r2 := r1.(tree := tree);
      if qc.None? then Outcome(r2, [], [])
      else
        var signed := [Aggregated(qc.value.signatures)];
        var (r3, moved) := ProcessCertificateQC(cfg, r2, qc);
        if !moved then Outcome(r3, [], signed)
        else After([], signed, ProcessNewRound(cfg, r3, None, inputs))
  }

  ghost function ServeBlock(cfg: Config, r: Replica, id: Hash): Option<Block> {
    if id in r.tree.pending then Some(r.tree.pending[id])
    else Lookup(Retained(r.ledger.log, cfg.history), id)
  }

  ghost function Step(cfg: Config, k: Keyring, r: Replica, e: Event, inputs: Inputs): Outcome {
    match e
    case ProposalEvent(p) => HandleProposal(cfg, k, r, p, inputs)
    case VoteEvent(m) => HandleVote(cfg, r, m, inputs)
    case TimeoutEvent(m) => HandleTimeout(cfg, k, r, m, inputs)
    case LocalTimeoutEvent(epoch) =>
      if epoch == r.pacemaker.epoch then LocalTimeoutRound(cfg, k, r, inputs.timeoutSig) else Outcome(r, [], [])
    case BlockEvent(b) => Insert(r, b)
    case BlockRequestEvent(id) => Outcome(r, [ReplyBlock(ServeBlock(cfg, r, id))], [])
  }

  /** core.go:143: the first thing a replica does. */
  ghost function Start(cfg: Config, inputs: Inputs): Outcome {
    ProcessNewRound(cfg, NEW_REPLICA.(pacemaker := P.AdvanceQC(P.NEW_PACEMAKER, GENESIS_QC).0), None, inputs)
  }

  /** What the edge has checked before an event is queued. */
  ghost predicate VerifiedEvent(k: Keyring, e: Event) {
    match e
    case ProposalEvent(p) => VerifyProposal(k, p)
    case VoteEvent(m) => VerifyVote(k, m)
    case TimeoutEvent(m) => VerifyTimeout(k, m)
    case LocalTimeoutEvent(_) => true
    case BlockEvent(b) => ValidBlockId(b)
    case BlockRequestEvent(_) => true
  }
}
