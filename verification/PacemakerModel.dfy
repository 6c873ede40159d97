// What the pacemaker of diem/pacemaker.go computes, on values: round entry, the timeout
// buckets and the round timer.
module PacemakerModel {
  import opened Wire
  import opened Hashing
  import opened Verification
  import opened Sorting

  datatype TimeoutBucket = TimeoutBucket(infos: seq<TimeoutInfo>, senders: set<Id>)

  /** `timer` is the handle the pacemaker holds, named by the epoch its callback carries; `armed`
      are the clock's timers that have neither fired nor been stopped. */
  datatype Pacemaker = Pacemaker(currentRound: Round, lastRoundTC: Option<TimeoutCert>,
                                 timeouts: map<Round, TimeoutBucket>, timer: Option<nat>, armed: set<nat>,
                                 epoch: nat)

  const NEW_PACEMAKER: Pacemaker := Pacemaker(0, None, map[], None, {}, 0)

  function Stop(p: Pacemaker): Pacemaker {
    p.(epoch := p.epoch + 1, timer := None,
       armed := if p.timer.Some? then p.armed - {p.timer.value} else p.armed)
  }

  function StartTimer(p: Pacemaker, newRound: Round): Pacemaker {
    var q := Stop(p);
    q.(currentRound := newRound,
       timeouts := map r | r in q.timeouts && r >= newRound :: q.timeouts[r],
       timer := Some(q.epoch), armed := q.armed + {q.epoch})
  }

  function AdvanceTC(p: Pacemaker, tc: Option<TimeoutCert>): (Pacemaker, bool) {
    if tc.None? || tc.value.round < p.currentRound then (p, false)
    else (StartTimer(p.(lastRoundTC := tc), Succ(tc.value.round)), true)
  }

  function AdvanceQC(p: Pacemaker, qc: QuorumCert): (Pacemaker, bool) {
    if qc.voteInfo.round < p.currentRound then (p, false)
    else (StartTimer(p.(lastRoundTC := None), Succ(qc.voteInfo.round)), true)
  }

  // ---------------------------------------------------------------------------- timeouts

  /** Timeouts that change nothing: stale ones and repeats. */
  predicate Ignored(p: Pacemaker, info: TimeoutInfo) {
    info.round < p.currentRound ||
    (info.round in p.timeouts && info.sender in p.timeouts[info.round].senders)
  }

  function BucketWith(p: Pacemaker, info: TimeoutInfo): TimeoutBucket {
    var b := if info.round in p.timeouts then p.timeouts[info.round] else TimeoutBucket([], {});
    TimeoutBucket(b.infos + [info], b.senders + {info.sender})
  }

  function Collect(p: Pacemaker, info: TimeoutInfo): Pacemaker {
    p.(timeouts := p.timeouts[info.round := BucketWith(p, info)])
  }

  function ReportOf(i: TimeoutInfo): TimeoutVote { TimeoutVote(QCRound(i.highQc), i.sig) }

  function Reports(infos: seq<TimeoutInfo>): (votes: seq<TimeoutVote>)
    ensures |votes| == |infos| && forall i :: 0 <= i < |infos| ==> votes[i] == ReportOf(infos[i])
  {
    if infos == [] then [] else Reports(infos[..|infos| - 1]) + [ReportOf(infos[|infos| - 1])]
  }

  function ReporterOf(v: TimeoutVote): int { v.sig.signer }

  function TimeoutCertOf(round: Round, b: TimeoutBucket): TimeoutCert {
    TimeoutCert(round, SortBy(ReporterOf, Reports(b.infos)))
  }

  // --------------------------------------------------------------------------- invariant

  function SenderOf(i: TimeoutInfo): int { i.sender }

  ghost predicate InfoInv(k: Keyring, round: Round, i: TimeoutInfo) {
    && i.round == round && i.sig.signer == i.sender && i.highQc.Some?
    && k.Verifies(TimeoutDigest(round, QCRound(i.highQc)), i.sig)
  }

  /** One verified timeout per sender, all for the bucket's round. */
  ghost predicate BucketInv(k: Keyring, round: Round, b: TimeoutBucket) {
    && round != 0 && |b.infos| == |b.senders| && Distinct(SenderOf, b.infos)
    && forall i :: i in b.infos ==> i.sender in b.senders && InfoInv(k, round, i)
  }

  ghost predicate PacemakerInv(k: Keyring, p: Pacemaker) {
    && VerifyTC(k, p.lastRoundTC)
    && forall r :: r in p.timeouts ==> BucketInv(k, r, p.timeouts[r])
  }

  lemma PacemakerInvGrows(k: Keyring, k': Keyring, p: Pacemaker)
    requires PacemakerInv(k, p) && Grows(k, k')
    ensures PacemakerInv(k', p)
  {
    hide TimeoutDigest;
    VerifyTCGrows(k, k', p.lastRoundTC);
    forall r | r in p.timeouts ensures BucketInv(k', r, p.timeouts[r]) {
      assert BucketInv(k, r, p.timeouts[r]);
      forall i | i in p.timeouts[r].infos ensures InfoInv(k', r, i) { assert InfoInv(k, r, i); }
    }
  }

  lemma StartTimerInv(k: Keyring, p: Pacemaker, round: Round)
    requires PacemakerInv(k, p)
    ensures PacemakerInv(k, StartTimer(p, round))
  {
    hide VerifyTC;
    hide BucketInv;
  }

  lemma CollectInv(k: Keyring, p: Pacemaker, m: TimeoutMsg)
    requires PacemakerInv(k, p) && VerifyTimeout(k, m) && !Ignored(p, m.tmoInfo)
    ensures PacemakerInv(k, Collect(p, m.tmoInfo))
  {
    hide VerifyQC;
    hide VerifyTC;
    hide TimeoutDigest;
    var info := m.tmoInfo;
    var p' := Collect(p, info);
    var b' := BucketWith(p, info);
    assert InfoInv(k, info.round, info);
    if info.round in p.timeouts {
      var b := p.timeouts[info.round];
      assert BucketInv(k, info.round, b);
      forall i | 0 <= i < |b.infos| ensures SenderOf(b.infos[i]) != SenderOf(info) { assert b.infos[i] in b.infos; }
      assert b'.infos == b.infos + [info];
    }
    assert BucketInv(k, info.round, b');
  }

  /** Timeouts by distinct senders make a certificate every replica accepts. */
  lemma TimeoutCertVerifies(k: Keyring, round: Round, b: TimeoutBucket)
    requires BucketInv(k, round, b) && |b.senders| >= k.Quorum()
    ensures VerifyTC(k, Some(TimeoutCertOf(round, b)))
  {
    hide TimeoutDigest;
    hide SortBy;
    var rs := Reports(b.infos);
    var votes := SortBy(ReporterOf, rs);
    forall i, j | 0 <= i < j < |rs| ensures ReporterOf(rs[i]) != ReporterOf(rs[j]) {
      assert b.infos[i] in b.infos && b.infos[j] in b.infos;
      assert SenderOf(b.infos[i]) != SenderOf(b.infos[j]);
    }
    SortAscends(ReporterOf, rs);
    SortPermutes(ReporterOf, rs);
    assert |multiset(votes)| == |votes| && |multiset(rs)| == |rs|;
    forall i | 0 <= i < |votes| ensures k.Verifies(TimeoutDigest(round, votes[i].highQcRound), votes[i].sig) {
      assert votes[i] in multiset(votes);
      var j :| 0 <= j < |rs| && rs[j] == votes[i];
      assert b.infos[j] in b.infos && InfoInv(k, round, b.infos[j]);
    }
    forall i | 0 < i < |votes| ensures votes[i - 1].sig.signer < votes[i].sig.signer {
      assert ReporterOf(votes[i - 1]) < ReporterOf(votes[i]);
    }
  }

  /** A certificate reports no round that none of its timeouts carried. */
  lemma TimeoutCertReports(round: Round, b: TimeoutBucket, bound: Round)
    requires forall i :: i in b.infos ==> QCRound(i.highQc) <= bound
    ensures MaxHighQCRound(TimeoutCertOf(round, b).votes) <= bound
  {
    hide SortBy;
    var rs := Reports(b.infos);
    var votes := SortBy(ReporterOf, rs);
    SortPermutes(ReporterOf, rs);
    forall v | v in votes ensures v.highQcRound <= bound {
      assert v in multiset(votes);
      var j :| 0 <= j < |rs| && rs[j] == v;
      assert b.infos[j] in b.infos;
    }
    MaxHighQCRoundLeast(votes, bound);
  }
}
