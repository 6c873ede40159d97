// The agreement argument. Everything here is about one moment of a run: the keyring and what
// each correct replica has signed so far. Nothing about rounds, leaders, delivery or storage is
// assumed; faulty replicas may have signed anything.
module Agreement {
  import opened Wire
  import opened Hashing
  import opened Quorums
  import opened Verification
  import opened Chains
  import opened SafetyRules

  /** `logs` holds every statement of every correct replica, in order. */
  datatype World = World(keys: Keyring, logs: map<Id, seq<Statement>>)

  ghost predicate Accounted(w: World, signer: Id, digest: Hash) {
    && signer in w.logs
    && exists i :: 0 <= i < |w.logs[signer]| && StatementDigest(w.logs[signer][i]) == digest
  }

  ghost predicate WorldInv(execute: Execution, w: World) {
    && StateIds(execute)
    && w.keys.Valid()
    && (forall r :: r in w.logs ==> Disciplined(w.logs[r]))
    && (forall r, s :: r in w.logs && s in w.logs[r] ==> Justified(execute, w.keys, s))
    && (forall p :: p in w.keys.signed ==> Accounted(w, p.0, p.1))
  }

  // ------------------------------------------------------------- from signatures to votes

  /** A correct signer of a certificate cast exactly the vote it certifies. */
  lemma VoteBehind(execute: Execution, w: World, qc: QuorumCert, r: Id) returns (s: Statement)
    requires WorldInv(execute, w) && VerifyQC(w.keys, qc) && qc.voteInfo.round > 0
    requires r in Signers(qc.signatures) && r !in w.keys.faulty
    ensures r in w.logs && s in w.logs[r] && s.Voted?
    ensures s.ballot == Ballot(qc.voteInfo, qc.ledgerCommitInfo)
    ensures JustifiedVote(execute, w.keys, s.block, s.tc, s.ballot)
  {
    hide BlockId;
    var d := LedgerCommitDigest(qc.ledgerCommitInfo);
    CertSigners(w.keys, d, qc.signatures);
    assert (r, d) in w.keys.signed;
    assert Accounted(w, (r, d).0, (r, d).1);
    var i :| 0 <= i < |w.logs[r]| && StatementDigest(w.logs[r][i]) == d;
    s := w.logs[r][i];
    assert Justified(execute, w.keys, s);
    VoteDigest(execute, w.keys, s, qc.voteInfo, qc.ledgerCommitInfo);
  }

  lemma DigestDomain(execute: Execution, k: Keyring, s: Statement)
    requires Justified(execute, k, s)
    ensures s.Voted? ==> InDomain(StatementDigest(s), DOMAIN_LEDGER_COMMIT)
    ensures s.TimedOut? ==> InDomain(StatementDigest(s), DOMAIN_TIMEOUT)
    ensures s.Proposed? ==> InDomain(StatementDigest(s), DOMAIN_BLOCK)
    ensures s.Aggregated? ==> InDomain(StatementDigest(s), DOMAIN_QC_SIGS)
  { }

  /** The digest of a vote gives the whole vote back. */
  lemma VoteDigest(execute: Execution, k: Keyring, s: Statement, v: VoteInfo, l: LedgerCommitInfo)
    requires StateIds(execute) && Justified(execute, k, s) && StatementDigest(s) == LedgerCommitDigest(l)
    requires ValidVote(v, l) && VoteInfoHash(v) == l.voteInfoHash
    ensures s.Voted? && s.ballot == Ballot(v, l)
  {
    DigestDomain(execute, k, s);
    assert InDomain(LedgerCommitDigest(l), DOMAIN_LEDGER_COMMIT);
    hide BlockId;
    hide LedgerCommitPreimage;
    hide VoteInfoPreimage;
    ReplayIsHash(execute, s.block.id);
    ReplayIsHash(execute, ParentId(s.block));
    LedgerCommitDigestInjective(s.ballot.commit, l);
    VoteInfoHashInjective(s.ballot.info, v);
  }

  /** The digest of a timeout gives its two rounds back. */
  lemma TimeoutStatement(execute: Execution, k: Keyring, s: Statement, round: Round, high: Round)
    requires Justified(execute, k, s) && StatementDigest(s) == TimeoutDigest(round, high)
    ensures s.TimedOut? && s.round == round && s.highQC.voteInfo.round == high
  {
    DigestDomain(execute, k, s);
    assert InDomain(TimeoutDigest(round, high), DOMAIN_TIMEOUT);
    hide TimeoutDigest;
    TimeoutDigestInjective(s.round, s.highQC.voteInfo.round, round, high);
  }

  /** Some correct replica cast the vote a certificate certifies. */
  lemma CorrectVoter(execute: Execution, w: World, qc: QuorumCert) returns (r: Id, s: Statement)
    requires WorldInv(execute, w) && VerifyQC(w.keys, qc) && qc.voteInfo.round > 0
    ensures r in w.logs && s in w.logs[r] && s.Voted?
    ensures s.ballot == Ballot(qc.voteInfo, qc.ledgerCommitInfo)
    ensures JustifiedVote(execute, w.keys, s.block, s.tc, s.ballot)
  {
    hide BlockId;
    CertSigners(w.keys, LedgerCommitDigest(qc.ledgerCommitInfo), qc.signatures);
    r := QuorumHasCorrect(w.keys.validators, w.keys.faulty, Signers(qc.signatures));
    s := VoteBehind(execute, w, qc, r);
  }

  // ------------------------------------------------------------------ one vote per round

  /** Of two statements in one log, one is the other or they are in order. */
  lemma Compare(log: seq<Statement>, s: Statement, t: Statement)
    requires Disciplined(log) && s in log && t in log
    ensures s == t || InOrder(s, t) || InOrder(t, s)
  {
    var i :| 0 <= i < |log| && log[i] == s;
    var j :| 0 <= j < |log| && log[j] == t;
    assert i == j || InOrder(log[i], log[j]) || InOrder(log[j], log[i]);
  }

  lemma SameVoteInRound(log: seq<Statement>, s: Statement, t: Statement)
    requires Disciplined(log) && s in log && t in log && s.Voted? && t.Voted?
    requires s.block.round == t.block.round
    ensures s == t
  {
    Compare(log, s, t);
  }

  /** Any two certificates for one round carry the same VoteInfo and LedgerCommitInfo. */
  lemma OneCertificatePerRound(execute: Execution, w: World, a: QuorumCert, b: QuorumCert)
    requires WorldInv(execute, w) && VerifyQC(w.keys, a) && VerifyQC(w.keys, b)
    requires a.voteInfo.round == b.voteInfo.round
    ensures a.voteInfo == b.voteInfo && a.ledgerCommitInfo == b.ledgerCommitInfo
  {
    hide BlockId;
    if a.voteInfo.round > 0 {
      CertSigners(w.keys, LedgerCommitDigest(a.ledgerCommitInfo), a.signatures);
      CertSigners(w.keys, LedgerCommitDigest(b.ledgerCommitInfo), b.signatures);
      var r := QuorumsMeet(w.keys.validators, w.keys.faulty, Signers(a.signatures), Signers(b.signatures));
      var s := VoteBehind(execute, w, a, r);
      var t := VoteBehind(execute, w, b, r);
      SameVoteInRound(w.logs[r], s, t);
    }
  }

  // ---------------------------------------------------------------------- the TC lemma

  /** A verified certificate whose block sits one round above its parent: what commits the parent. */
  ghost predicate TwoChain(k: Keyring, qc: QuorumCert) {
    VerifyQC(k, qc) && qc.voteInfo.round > 0 && Consecutive(qc.voteInfo.round, qc.voteInfo.parentRound)
  }

  /** A replica that voted for the 2-chain and also timed out at or above it did the first
      before the second, and then had to report at least the endorsed round. */
  lemma VotedThenTimedOut(log: seq<Statement>, vote: Statement, timeout: Statement)
    requires Disciplined(log) && vote in log && timeout in log && vote.Voted? && timeout.TimedOut?
    requires timeout.round >= vote.block.round
    ensures timeout.highQC.voteInfo.round >= QCRound(vote.block.qc)
  {
    Compare(log, vote, timeout);
  }

  /** Every TC of a round above a committed block's reports at least that block's round. */
  lemma TimeoutCertReportsCommit(execute: Execution, w: World, qc: QuorumCert, tc: TimeoutCert)
    requires WorldInv(execute, w) && TwoChain(w.keys, qc)
    requires VerifyTC(w.keys, Some(tc)) && tc.round > qc.voteInfo.parentRound
    ensures MaxHighQCRound(tc.votes) >= qc.voteInfo.parentRound
  {
    hide BlockId;
    hide VoteSigs;
    CertSigners(w.keys, LedgerCommitDigest(qc.ledgerCommitInfo), qc.signatures);
    TCSigners(w.keys, tc);
    var sigs := VoteSigs(tc.votes);
    var r := QuorumsMeet(w.keys.validators, w.keys.faulty, Signers(qc.signatures), Signers(sigs));
    var vote := VoteBehind(execute, w, qc, r);
    var i :| 0 <= i < |sigs| && sigs[i].signer == r;
    var timeout := TimeoutBehind(execute, w, tc, i);
    VotedThenTimedOut(w.logs[r], vote, timeout);
    MaxHighQCRoundBounds(tc.votes, i);
  }

  /** A correct signer of a TC did time out of its round with the reported high QC. */
  lemma TimeoutBehind(execute: Execution, w: World, tc: TimeoutCert, i: nat) returns (s: Statement)
    requires WorldInv(execute, w) && VerifyTC(w.keys, Some(tc)) && i < |tc.votes|
    requires tc.votes[i].sig.signer !in w.keys.faulty
    ensures tc.votes[i].sig.signer in w.logs && s in w.logs[tc.votes[i].sig.signer] && s.TimedOut?
    ensures s.round == tc.round && s.highQC.voteInfo.round == tc.votes[i].highQcRound
  {
    var r, d := tc.votes[i].sig.signer, TimeoutDigest(tc.round, tc.votes[i].highQcRound);
    hide TimeoutDigest;
    assert w.keys.Verifies(d, tc.votes[i].sig);
    assert Accounted(w, (r, d).0, (r, d).1);
    var j :| 0 <= j < |w.logs[r]| && StatementDigest(w.logs[r][j]) == d;
    s := w.logs[r][j];
    assert Justified(execute, w.keys, s);
    TimeoutStatement(execute, w.keys, s, tc.round, tc.votes[i].highQcRound);
  }

  // ------------------------------------------------- every later certificate extends a commit

  lemma GenesisRoundZero(b: Block)
    requires ValidBlockId(b) && b.id == GENESIS_BLOCK.id
    ensures b.round == 0
  {
    hide BlockPreimage;
    BlockIdInjective(b, GENESIS_BLOCK);
  }

  /** A justified vote's block sits on its parent's chain. */
  lemma VotedChain(execute: Execution, k: Keyring, s: Statement)
    requires s.Voted? && JustifiedVote(execute, k, s.block, s.tc, s.ballot)
    ensures ChainOf(s.block.id) == ChainOf(ParentId(s.block)) + [s.block.id]
  {
    if s.block.id == GENESIS_BLOCK.id { GenesisRoundZero(s.block); }
    hide BlockId;
    assert Names(s.block.id, s.block);
    ChainStep(s.block);
  }

  /** Once a quorum has voted for a block of round r+1 over a certificate for B of round r, every
      certificate of round r or later certifies a block whose chain contains B. */
  lemma {:induction false} LaterCertificatesExtend(execute: Execution, w: World, qc: QuorumCert, cert: QuorumCert)
    requires WorldInv(execute, w) && TwoChain(w.keys, qc)
    requires VerifyQC(w.keys, cert) && cert.voteInfo.round >= qc.voteInfo.parentRound
    ensures OnChain(qc.voteInfo.parentId, cert.voteInfo.id)
    decreases cert.voteInfo.round
  {
    hide BlockId;
    hide ChainOf;
    var B, r, r' := qc.voteInfo.parentId, qc.voteInfo.parentRound, cert.voteInfo.round;
    var _, over := CorrectVoter(execute, w, qc);
    if r' == r {
      OneCertificatePerRound(execute, w, over.block.qc.value, cert);
    } else if r' == r + 1 {
      OneCertificatePerRound(execute, w, qc, cert);
      VotedChain(execute, w.keys, over);
      assert B in ChainOf(ParentId(over.block));
    } else {
      var _, s := CorrectVoter(execute, w, cert);
      var below := s.block.qc.value;
      if !Consecutive(r', below.voteInfo.round) {
        TimeoutCertReportsCommit(execute, w, qc, s.tc.value);
      }
      LaterCertificatesExtend(execute, w, qc, below);
      VotedChain(execute, w.keys, s);
    }
  }

  /** The parents two 2-chains commit are on one chain. */
  lemma CommitsOnOneChain(execute: Execution, w: World, a: QuorumCert, b: QuorumCert)
    requires WorldInv(execute, w) && TwoChain(w.keys, a) && TwoChain(w.keys, b)
    requires a.voteInfo.parentRound <= b.voteInfo.parentRound
    ensures ChainOf(a.voteInfo.parentId) <= ChainOf(b.voteInfo.parentId)
  {
    hide BlockId;
    hide ChainOf;
    var _, over := CorrectVoter(execute, w, b);
    LaterCertificatesExtend(execute, w, a, over.block.qc.value);
    ChainPrefix(a.voteInfo.parentId, b.voteInfo.parentId);
  }

  /** Every certified block is on a chain from genesis. */
  lemma {:induction false} CertifiedFromGenesis(execute: Execution, w: World, cert: QuorumCert)
    requires WorldInv(execute, w) && VerifyQC(w.keys, cert)
    ensures OnChain(GENESIS_BLOCK.id, cert.voteInfo.id)
    decreases cert.voteInfo.round
  {
    hide BlockId;
    hide ChainOf;
    if cert.voteInfo.round > 0 {
      var _, s := CorrectVoter(execute, w, cert);
      CertifiedFromGenesis(execute, w, s.block.qc.value);
      VotedChain(execute, w.keys, s);
    }
  }

  // ------------------------------------------------------------------ certified execution

  lemma ZeroCommitsNothing(l: LedgerCommitInfo)
    requires l.commitStateId == ZERO_HASH
    ensures !Commits(l)
  { }

  /** A certificate above genesis certifies the replay of its block's whole chain; one that
      commits certifies the replay of the parent's, exactly one round below. */
  lemma CertifiedExecution(execute: Execution, w: World, qc: QuorumCert)
    requires WorldInv(execute, w) && VerifyQC(w.keys, qc) && qc.voteInfo.round > 0
    ensures qc.voteInfo.execStateId == Replay(execute, qc.voteInfo.id)
    ensures Commits(qc.ledgerCommitInfo) ==>
              && qc.ledgerCommitInfo.commitStateId == Replay(execute, qc.voteInfo.parentId)
              && qc.voteInfo.parentRound + 1 == qc.voteInfo.round
  {
    hide BlockId;
    var _, s := CorrectVoter(execute, w, qc);
    if s.ballot.commit.commitStateId == ZERO_HASH { ZeroCommitsNothing(s.ballot.commit); }
  }

  // ---------------------------------------------------------------- one more signature

  function Record(w: World, r: Id, s: Statement): World
    requires r in w.logs
  {
    World(w.keys.Sign(r, StatementDigest(s)), w.logs[r := w.logs[r] + [s]])
  }

  lemma JustifiedGrows(execute: Execution, k: Keyring, k': Keyring, s: Statement)
    requires Grows(k, k') && Justified(execute, k, s)
    ensures Justified(execute, k', s)
  {
    hide BlockId;
    hide VerifyQC;
    hide VerifyTC;
    match s
    case Voted(b, tc, _) => VerifyQCGrows(k, k', b.qc.value); VerifyTCGrows(k, k', tc);
    case TimedOut(_, highQC, tc) => VerifyQCGrows(k, k', highQC); VerifyTCGrows(k, k', tc);
    case Proposed(_) =>
    case Aggregated(_) =>
  }

  /** Signing a justified statement that keeps the discipline preserves everything above. */
  lemma RecordKeepsWorld(execute: Execution, w: World, r: Id, s: Statement)
    requires WorldInv(execute, w) && r in w.logs && r in w.keys.validators && r !in w.keys.faulty
    requires Justified(execute, w.keys, s) && Disciplined(w.logs[r] + [s])
    ensures WorldInv(execute, Record(w, r, s)) && Grows(w.keys, Record(w, r, s).keys)
  {
    hide Justified;
    hide StatementDigest;
    hide Disciplined;
    var w' := Record(w, r, s);
    forall p | p in w'.keys.signed ensures Accounted(w', p.0, p.1) {
      if p in w.keys.signed {
        assert Accounted(w, p.0, p.1);
        var i :| 0 <= i < |w.logs[p.0]| && StatementDigest(w.logs[p.0][i]) == p.1;
        assert w'.logs[p.0][i] == w.logs[p.0][i];
      } else {
        assert w'.logs[r][|w.logs[r]|] == s;
      }
    }
    forall q, t | q in w'.logs && t in w'.logs[q] ensures Justified(execute, w'.keys, t) {
      assert t == s || (t in w.logs[q] && Justified(execute, w.keys, t));
      JustifiedGrows(execute, w.keys, w'.keys, t);
    }
  }
}
