// diem/safety.go: the safety module. Its two counters are all it remembers.
module SafetyImpl {
  import opened Wire
  import opened Hashing
  import opened HashWriter
  import opened Verification
  import opened Chains
  import LedgerModel
  import opened SafetyRules
  import opened LedgerImpl
  import opened TreeImpl
  import opened Seams

  class Safety {
    const id: Id
    const crypto: Crypto
    const ledger: MemLedger
    const tree: BlockTree

    var highestVoteRound: Round
    var highestQCRound: Round
    var declinedMissingAncestor: nat

    function View(): Counters
      reads this
    {
      Counters(highestVoteRound, highestQCRound)
    }

    constructor (id: Id, crypto: Crypto, ledger: MemLedger, tree: BlockTree)
      ensures View() == Counters(0, 0)
      ensures this.id == id && this.crypto == crypto && this.ledger == ledger && this.tree == tree
    {
      this.id := id;
      this.crypto := crypto;
      this.ledger := ledger;
      this.tree := tree;
      highestVoteRound := 0;
      highestQCRound := 0;
      declinedMissingAncestor := 0;
    }

    method IncreaseHighestVoteRound(round: Round)
      modifies this`highestVoteRound
      ensures highestVoteRound == MaxRound(round, old(highestVoteRound))
    {
      highestVoteRound := MaxRound(round, highestVoteRound);
    }

    method UpdateHighestQCRound(qcRound: Round)
      modifies this`highestQCRound
      ensures highestQCRound == MaxRound(qcRound, old(highestQCRound))
    {
      highestQCRound := MaxRound(qcRound, highestQCRound);
    }

    /** The parent's speculated state when the rounds are contiguous, and the zero hash otherwise. */
    method CommitStateIDCandidate(blockRound: Round, qc: Option<QuorumCert>) returns (state: Hash)
      requires ledger.Valid()
      ensures state == CommitStateCandidate(ledger.execute, ledger.View(), blockRound, qc)
      ensures state == if Succ(QCRound(qc)) == blockRound && LedgerModel.Ready(ledger.View(), QCBlockId(qc))
                       then Replay(ledger.execute, QCBlockId(qc)) else ZERO_HASH
    {
      hide MemLedger.Valid;
      hide Replay;
      if !Consecutive(blockRound, QCRound(qc)) {
        return ZERO_HASH;
      }
      var s, ok := ledger.PendingState(QCBlockId(qc));
      state := if ok then s else ZERO_HASH;
    }

    /** Counters, vote and signature all follow from the ballot the rules give, if they give one. */
    method MakeVote(keys: Keyring, b: Block, lastTC: Option<TimeoutCert>, outcome: Option<Blob>)
      returns (vote: Option<VoteMsg>)
      requires ledger.Valid()
      modifies this, crypto
      ensures var ballot := BallotFor(ledger.execute, keys, old(View()), ledger.View(), b, lastTC);
              && View() == (if ballot.None? then old(View()) else AfterVote(old(View()), b))
              && vote == (if ballot.None? || outcome.None? then None
                          else Some(VoteMsg(ballot.value.info, ballot.value.commit, Some(tree.highCommitQC), id,
                                            Signature(id, outcome.value))))
              && crypto.signed == old(crypto.signed) + if vote.None? then [] else [Voted(b, lastTC, ballot.value)]
    {
      hide MemLedger.Valid;
      hide Replay;
      hide VerifyQC;
      hide VerifyTC;
      hide BlockId;
      hide VoteInfoHash;
      hide LedgerCommitDigest;
      hide CommitStateCandidate;
      var qcRound := QCRound(b.qc);
      var bid := ComputeBlockId(b.author, b.round, b.payload, b.qc);
      if bid != b.id || !VerifyOptQC(keys, b.qc) || !VerifyTC(keys, lastTC) ||
         !SafeToVote(View(), b.round, qcRound, lastTC) {
        return None;
      }
      var exec, ok := ledger.PendingState(b.id);
      if !ok {
        declinedMissingAncestor := declinedMissingAncestor + 1;
        return None;
      }
      UpdateHighestQCRound(qcRound);
      IncreaseHighestVoteRound(b.round);
      var info := VoteInfo(b.id, b.round, ParentId(b), qcRound, exec);
      var candidate := CommitStateIDCandidate(b.round, b.qc);
      var infoHash := ComputeVoteInfoHash(info);
      var commit := LedgerCommitInfo(candidate, infoHash);
      var digest := ComputeLedgerCommitDigest(commit);
      var sig := crypto.Sign(digest, Voted(b, lastTC, Ballot(info, commit)), outcome);
      if sig.None? {
        return None;
      }
      vote := Some(VoteMsg(info, commit, Some(tree.highCommitQC), id, Signature(id, sig.value)));
    }

    /** The counter follows from the rules alone; the message also needs a signature. */
    method MakeTimeout(keys: Keyring, round: Round, highQC: QuorumCert, lastTC: Option<TimeoutCert>,
                       outcome: Option<Blob>)
      returns (info: Option<TimeoutInfo>)
      modifies this, crypto
      ensures var may := MayTimeout(keys, old(View()), round, highQC, lastTC);
              && View() == (if may then AfterTimeout(old(View()), round) else old(View()))
              && info == (if may && outcome.Some?
                          then Some(TimeoutInfo(round, Some(highQC), id, Signature(id, outcome.value))) else None)
              && crypto.signed == old(crypto.signed) + if info.None? then [] else [TimedOut(round, highQC, lastTC)]
    {
      hide VerifyQC;
      hide VerifyTC;
      hide TimeoutDigest;
      var qcRound := highQC.voteInfo.round;
      if !VerifyQC(keys, highQC) || !VerifyTC(keys, lastTC) || !SafeToTimeout(View(), round, qcRound, lastTC) {
        return None;
      }
      IncreaseHighestVoteRound(round);
      var digest := ComputeTimeoutDigest(round, qcRound);
      var sig := crypto.Sign(digest, TimedOut(round, highQC, lastTC), outcome);
      if sig.None? {
        return None;
      }
      info := Some(TimeoutInfo(round, Some(highQC), id, Signature(id, sig.value)));
    }
  }
}
