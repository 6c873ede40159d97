// diem/pacemaker.go: round entry, the timeout buckets and the round timer, updated in place.
module PacemakerImpl {
  import opened Wire
  import opened Verification
  import opened SafetyRules
  import opened TreeImpl
  import opened SafetyImpl
  import opened Seams
  import opened ReplicaModel
  import P = PacemakerModel
  import Sorting

  class Pacemaker {
    const quorum: nat
    const faulty: nat
    const net: Transport
    const safety: Safety
    const tree: BlockTree

    var currentRound: Round
    var lastRoundTC: Option<TimeoutCert>
    var pendingTimeouts: map<Round, P.TimeoutBucket>
    var timer: Option<nat>
    var epoch: nat

    /** The clock's timers that have neither fired nor been stopped. */
    var armed: set<nat>

    function View(): P.Pacemaker
      reads this
    {
      P.Pacemaker(currentRound, lastRoundTC, pendingTimeouts, timer, armed, epoch)
    }

    constructor (quorum: nat, faulty: nat, net: Transport, safety: Safety, tree: BlockTree)
      ensures View() == P.NEW_PACEMAKER
      ensures this.quorum == quorum && this.faulty == faulty
      ensures this.net == net && this.safety == safety && this.tree == tree
    {
      this.quorum := quorum;
      this.faulty := faulty;
      this.net := net;
      this.safety := safety;
      this.tree := tree;
      currentRound := 0;
      lastRoundTC := None;
      pendingTimeouts := map[];
      timer := None;
      epoch := 0;
      armed := {};
    }

    /** Disarm the round timer. */
    method Stop()
      modifies this
      ensures View() == P.Stop(old(View()))
    {
      epoch := epoch + 1;
      if timer.Some? {
        armed := armed - {timer.value};
        timer := None;
      }
    }

    method DropTimeoutsBelow(newRound: Round)
      modifies this`pendingTimeouts
      ensures pendingTimeouts == map r | r in old(pendingTimeouts) && r >= newRound :: old(pendingTimeouts)[r]
    {
      var todo := pendingTimeouts.Keys;
      while todo != {}
        invariant todo <= old(pendingTimeouts).Keys
        invariant forall r :: r in pendingTimeouts ==>
                    r in old(pendingTimeouts) && pendingTimeouts[r] == old(pendingTimeouts)[r]
        invariant forall r :: r in old(pendingTimeouts) && (r in todo || r >= newRound) ==> r in pendingTimeouts
        invariant forall r :: r in pendingTimeouts && r !in todo ==> r >= newRound
        decreases |todo|
      {
        var r: Round :| r in todo;
        todo := todo - {r};
        if r < newRound {
          pendingTimeouts := pendingTimeouts - {r};
        }
      }
    }

    /** Enter `newRound` and arm its timer. */
    method StartTimer(newRound: Round)
      modifies this
      ensures View() == P.StartTimer(old(View()), newRound)
    {
      Stop();
      currentRound := newRound;
      DropTimeoutsBelow(newRound);
      timer := Some(epoch);
      armed := armed + {epoch};
    }

    /** `r` is a replica whose pacemaker, safety and tree these are. */
    ghost predicate PartOf(cfg: Config, r: Replica)
      reads this, safety, tree
    {
      cfg.self == safety.id && r.pacemaker == View() && r.tree == tree.View() && r.counters == safety.View()
    }

    /** Pacemaker, counters, message and signature are the model's. */
    method LocalTimeoutRound(keys: Keyring, outcome: Option<Blob>, ghost cfg: Config, ghost r: Replica)
      requires PartOf(cfg, r)
      modifies this, safety, safety.crypto, net
      ensures var o := ReplicaModel.LocalTimeoutRound(cfg, keys, r, outcome);
              && PartOf(cfg, o.replica) && o.replica.ledger == r.ledger && o.replica.leaders == r.leaders
              && net.sent == old(net.sent) + o.sent && safety.crypto.signed == old(safety.crypto.signed) + o.signed
    {
      hide P.StartTimer;
      hide MayTimeout;
      StartTimerKeepsTC(View());
      StartTimer(currentRound);
      var info := safety.MakeTimeout(keys, currentRound, tree.highQC, lastRoundTC, outcome);
      if info.None? {
        return;
      }
      net.Send(Timeout(TimeoutMsg(info.value, JustifyingTC(QCRound(info.value.highQc), info.value.round, lastRoundTC),
                                  Some(tree.highCommitQC))));
    }

    /** Accumulate a timeout; the certificate it completes, or None. */
    method ProcessRemoteTimeout(keys: Keyring, tmo: TimeoutMsg, outcome: Option<Blob>, ghost cfg: Config,
                                ghost r: Replica)
      returns (tc: Option<TimeoutCert>)
      requires PartOf(cfg, r) && cfg.Quorum() == quorum && cfg.Tolerated() == faulty
      modifies this, safety, safety.crypto, net
      ensures var (o, cert) := ReplicaModel.ProcessRemoteTimeout(cfg, keys, r, tmo.tmoInfo, outcome);
              && PartOf(cfg, o.replica) && o.replica.ledger == r.ledger && o.replica.leaders == r.leaders
              && net.sent == old(net.sent) + o.sent && safety.crypto.signed == old(safety.crypto.signed) + o.signed
              && tc == cert
    {
      hide ReplicaModel.LocalTimeoutRound;
      hide P.Stop;
      hide P.TimeoutCertOf;
      var info := tmo.tmoInfo;
      if info.round < currentRound {
        return None;
      }
      var b := if info.round in pendingTimeouts then pendingTimeouts[info.round] else P.TimeoutBucket([], {});
      if info.sender in b.senders {
        return None;
      }
      b := P.TimeoutBucket(b.infos + [info], b.senders + {info.sender});
      assert b == P.BucketWith(r.pacemaker, info);
      pendingTimeouts := pendingTimeouts[info.round := b];
      assert View() == P.Collect(r.pacemaker, info);
      if |b.senders| == faulty + 1 {
        Stop();
        LocalTimeoutRound(keys, outcome, cfg, r.(pacemaker := View()));
      }
      if |b.senders| != quorum {
        return None;
      }
      var votes := GatherVotes(b.infos);
      tc := Some(TimeoutCert(info.round, Sorting.SortBy(P.ReporterOf, votes)));
      CertOfVotes(info.round, b);
    }

    /** The votes of a certificate, in arrival order. */
    method GatherVotes(infos: seq<TimeoutInfo>) returns (votes: seq<TimeoutVote>)
      ensures votes == P.Reports(infos)
      ensures |votes| == |infos| && forall i :: 0 <= i < |infos| ==>
                votes[i] == TimeoutVote(QCRound(infos[i].highQc), infos[i].sig)
    {
      votes := [];
      for i := 0 to |infos|
        invariant votes == P.Reports(infos[..i])
      {
        assert infos[..i + 1][..i] == infos[..i];
        votes := votes + [TimeoutVote(QCRound(infos[i].highQc), infos[i].sig)];
      }
      assert infos[..|infos|] == infos;
    }

    method AdvanceRoundTC(tc: Option<TimeoutCert>) returns (moved: bool)
      modifies this
      ensures (View(), moved) == P.AdvanceTC(old(View()), tc)
    {
      hide P.StartTimer;
      if tc.None? || tc.value.round < currentRound {
        return false;
      }
      lastRoundTC := tc;
      StartTimer(Succ(tc.value.round));
      return true;
    }

    method AdvanceRoundQC(qc: QuorumCert) returns (moved: bool)
      modifies this
      ensures (View(), moved) == P.AdvanceQC(old(View()), qc)
    {
      hide P.StartTimer;
      if qc.voteInfo.round < currentRound {
        return false;
      }
      lastRoundTC := None;
      StartTimer(Succ(qc.voteInfo.round));
      return true;
    }
  }

  lemma StartTimerKeepsTC(p: P.Pacemaker)
    ensures P.StartTimer(p, p.currentRound).currentRound == p.currentRound
    ensures P.StartTimer(p, p.currentRound).lastRoundTC == p.lastRoundTC
  { }

  lemma CertOfVotes(round: Round, b: P.TimeoutBucket)
    ensures P.TimeoutCertOf(round, b) == TimeoutCert(round, Sorting.SortBy(P.ReporterOf, P.Reports(b.infos)))
  { }
}
