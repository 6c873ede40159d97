// The voting rules of diem/safety.go on values, and what a correct replica ever signs.
module SafetyRules {
  import opened Wire
  import opened Hashing
  import opened Verification
  import opened Chains
  import opened LedgerModel

  /** Safety's whole memory. */
  datatype Counters = Counters(highestVoteRound: Round, highestQCRound: Round)

  predicate SafeToExtend(blockRound: Round, qcRound: Round, tc: Option<TimeoutCert>) {
    tc.Some? && Consecutive(blockRound, tc.value.round) && qcRound >= MaxHighQCRound(tc.value.votes)
  }

  predicate SafeToVote(c: Counters, blockRound: Round, qcRound: Round, tc: Option<TimeoutCert>) {
    && blockRound > MaxRound(c.highestVoteRound, qcRound)
    && (Consecutive(blockRound, qcRound) || SafeToExtend(blockRound, qcRound, tc))
  }

  predicate SafeToTimeout(c: Counters, round: Round, qcRound: Round, tc: Option<TimeoutCert>) {
    && qcRound >= c.highestQCRound
    && round > MaxRound(if c.highestVoteRound > 0 then c.highestVoteRound - 1 else 0, qcRound)
    && (Consecutive(round, qcRound) || (tc.Some? && Consecutive(round, tc.value.round)))
  }

  /** A vote before it is signed. */
  datatype Ballot = Ballot(info: VoteInfo, commit: LedgerCommitInfo)

  /** The 2-chain commit rule. */
  ghost function CommitStateCandidate(execute: Execution, l: Ledger, blockRound: Round,
                                      qc: Option<QuorumCert>): Hash {
    if !Consecutive(blockRound, QCRound(qc)) then ZERO_HASH
    else
      var state := PendingState(execute, l, QCBlockId(qc));
      if state.None? then ZERO_HASH else state.value
  }

  ghost predicate MayVote(k: Keyring, c: Counters, b: Block, tc: Option<TimeoutCert>) {
    && ValidBlockId(b) && VerifyOptQC(k, b.qc) && VerifyTC(k, tc)
    && SafeToVote(c, b.round, QCRound(b.qc), tc)
  }

  /** What MakeVote is about to sign, if anything. */
  ghost function BallotFor(execute: Execution, k: Keyring, c: Counters, l: Ledger, b: Block,
                           tc: Option<TimeoutCert>): Option<Ballot> {
    if !MayVote(k, c, b, tc) || !Ready(l, b.id) then None
    else
      var info := VoteInfo(b.id, b.round, ParentId(b), QCRound(b.qc), Replay(execute, b.id));
      Some(Ballot(info, LedgerCommitInfo(CommitStateCandidate(execute, l, b.round, b.qc), VoteInfoHash(info))))
  }

  function AfterVote(c: Counters, b: Block): Counters {
    Counters(MaxRound(b.round, c.highestVoteRound), MaxRound(QCRound(b.qc), c.highestQCRound))
  }

  ghost predicate MayTimeout(k: Keyring, c: Counters, round: Round, highQC: QuorumCert, tc: Option<TimeoutCert>) {
    VerifyQC(k, highQC) && VerifyTC(k, tc) && SafeToTimeout(c, round, highQC.voteInfo.round, tc)
  }

  function AfterTimeout(c: Counters, round: Round): Counters {
    c.(highestVoteRound := MaxRound(round, c.highestVoteRound))
  }

  // ---------------------------------------------------------------- what replicas sign

  /** Everything a correct replica puts its key to: a vote (with the block and TC it was cast
      over), a timeout, a proposal, the signature set of a certificate it assembled. */
  datatype Statement =
    | Voted(block: Block, tc: Option<TimeoutCert>, ballot: Ballot)
    | TimedOut(round: Round, highQC: QuorumCert, tc: Option<TimeoutCert>)
    | Proposed(block: Block)
    | Aggregated(sigs: seq<Signature>)

  function StatementDigest(s: Statement): Hash {
    match s
    case Voted(_, _, ballot) => LedgerCommitDigest(ballot.commit)
    case TimedOut(round, highQC, _) => TimeoutDigest(round, highQC.voteInfo.round)
    case Proposed(b) => b.id
    case Aggregated(sigs) => QcSigsDigest(sigs)
  }

  /** The vote is over a block a voter may endorse, and claims the true execution results. */
  ghost predicate JustifiedVote(execute: Execution, k: Keyring, b: Block, tc: Option<TimeoutCert>, v: Ballot) {
    && ValidBlockId(b) && VerifyOptQC(k, b.qc) && VerifyTC(k, tc)
    && b.round > QCRound(b.qc)
    && (Consecutive(b.round, QCRound(b.qc)) || SafeToExtend(b.round, QCRound(b.qc), tc))
    && v.info == VoteInfo(b.id, b.round, ParentId(b), QCRound(b.qc), Replay(execute, b.id))
    && v.commit.voteInfoHash == VoteInfoHash(v.info)
    && (v.commit.commitStateId == ZERO_HASH ||
        (Consecutive(b.round, QCRound(b.qc)) && v.commit.commitStateId == Replay(execute, ParentId(b))))
  }

  ghost predicate Justified(execute: Execution, k: Keyring, s: Statement) {
    match s
    case Voted(b, tc, ballot) => JustifiedVote(execute, k, b, tc, ballot)
    case TimedOut(_, highQC, tc) => VerifyQC(k, highQC) && VerifyTC(k, tc)
    case Proposed(b) => ValidBlockId(b)
    case Aggregated(_) => true
  }

  /** What the two counters enforce between an earlier statement and a later one: votes are in
      strictly increasing rounds and never at or below a round already abandoned; a timeout is
      never below a round voted in, and never reports less than a vote has endorsed. */
  ghost predicate InOrder(earlier: Statement, later: Statement) {
    && (later.Voted? && earlier.Voted? ==> earlier.block.round < later.block.round)
    && (later.Voted? && earlier.TimedOut? ==> earlier.round < later.block.round)
    && (later.TimedOut? && earlier.Voted? ==>
          earlier.block.round <= later.round && QCRound(earlier.block.qc) <= later.highQC.voteInfo.round)
  }

  ghost predicate Disciplined(log: seq<Statement>) {
    forall i, j :: 0 <= i < j < |log| ==> InOrder(log[i], log[j])
  }

  /** The counters dominate everything in the log. */
  ghost predicate Covers(c: Counters, log: seq<Statement>) {
    && (forall s :: s in log && s.Voted? ==>
          s.block.round <= c.highestVoteRound && QCRound(s.block.qc) <= c.highestQCRound)
    && (forall s :: s in log && s.TimedOut? ==> s.round <= c.highestVoteRound)
  }

  /** An execution whose state ids are digests. */
  ghost predicate StateIds(execute: Execution) {
    forall h: Hash, p: Payload :: ValidHash(execute(h, p))
  }

  // ------------------------------------------------------------------- the rules suffice

  lemma {:induction false} ReplayIsHash(execute: Execution, h: Hash)
    requires StateIds(execute)
    ensures ValidHash(Replay(execute, h))
    decreases Height(h)
  { }

  /** A vote the rules let through keeps the discipline and is justified. */
  lemma VoteIsSafe(execute: Execution, k: Keyring, c: Counters, l: Ledger, b: Block, tc: Option<TimeoutCert>,
                   log: seq<Statement>)
    requires Covers(c, log) && Disciplined(log) && BallotFor(execute, k, c, l, b, tc).Some?
    ensures var s := Voted(b, tc, BallotFor(execute, k, c, l, b, tc).value);
            && Justified(execute, k, s)
            && Disciplined(log + [s]) && Covers(AfterVote(c, b), log + [s])
  {
    hide BlockId;
    hide VerifyQC;
    var s := Voted(b, tc, BallotFor(execute, k, c, l, b, tc).value);
    var log' := log + [s];
    forall i, j | 0 <= i < j < |log'| ensures InOrder(log'[i], log'[j]) {
      if j == |log| { assert log'[i] in log; }
    }
  }

  /** So does a timeout. */
  lemma TimeoutIsSafe(execute: Execution, k: Keyring, c: Counters, round: Round, highQC: QuorumCert,
                      tc: Option<TimeoutCert>, log: seq<Statement>)
    requires Covers(c, log) && Disciplined(log) && MayTimeout(k, c, round, highQC, tc)
    ensures var s := TimedOut(round, highQC, tc);
            && Justified(execute, k, s)
            && Disciplined(log + [s]) && Covers(AfterTimeout(c, round), log + [s])
  {
    hide VerifyQC;
    var s := TimedOut(round, highQC, tc);
    var log' := log + [s];
    forall i, j | 0 <= i < j < |log'| ensures InOrder(log'[i], log'[j]) {
      if j == |log| { assert log'[i] in log; }
    }
  }

  /** Proposals and aggregates leave the counters alone. */
  lemma OtherIsSafe(c: Counters, s: Statement, log: seq<Statement>)
    requires Covers(c, log) && Disciplined(log) && (s.Proposed? || s.Aggregated?)
    ensures Disciplined(log + [s]) && Covers(c, log + [s])
  { }

  /** Raising counters without signing, as a failed signature does, is safe too. */
  lemma CoversMore(c: Counters, c': Counters, log: seq<Statement>)
    requires Covers(c, log)
    requires c.highestVoteRound <= c'.highestVoteRound && c.highestQCRound <= c'.highestQCRound
    ensures Covers(c', log)
  { }
}
