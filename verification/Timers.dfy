// The round timer over runs that also fire timers and queue their events: a timer may be stopped
// after it has fired and before its event is handled, and epochs tell such events apart.
module Timers {
  import opened Wire
  import opened Verification
  import opened LedgerModel
  import opened SafetyRules
  import opened TreeModel
  import P = PacemakerModel
  import opened ReplicaModel

  /** A started replica and the timer events waiting in its queue. */
  datatype Timed = Timed(replica: Replica, queued: multiset<nat>)

  datatype TimedAction =
    | Inbound(keys: Keyring, event: Event, inputs: Inputs)
    | Fire(fired: nat)
    | Dispatch(dispatched: nat, at: Keyring, dispatchInputs: Inputs)

  ghost predicate Possible(t: Timed, a: TimedAction) {
    match a
    case Inbound(_, e, _) => !e.LocalTimeoutEvent?
    case Fire(epoch) => epoch in t.replica.pacemaker.armed
    case Dispatch(epoch, _, _) => epoch in t.queued
  }

  ghost function Act(cfg: Config, t: Timed, a: TimedAction): Timed
    requires Possible(t, a)
  {
    match a
    case Inbound(k, e, inputs) => t.(replica := Step(cfg, k, t.replica, e, inputs).replica)
    case Fire(epoch) =>
      var p := t.replica.pacemaker;
      Timed(t.replica.(pacemaker := p.(armed := p.armed - {epoch})), t.queued + multiset{epoch})
    case Dispatch(epoch, k, inputs) =>
      Timed(Step(cfg, k, t.replica, LocalTimeoutEvent(epoch), inputs).replica, t.queued - multiset{epoch})
  }

  // --------------------------------------------------------------------- what a step does

  /** The clock runs no timer but the one the pacemaker holds. */
  ghost predicate Held(p: P.Pacemaker) { p.armed <= if p.timer.Some? then {p.timer.value} else {} }

  ghost predicate Fresh(p: P.Pacemaker, q: P.Pacemaker) {
    q.epoch > p.epoch && q.timer == Some(q.epoch) && q.armed == {q.epoch}
  }

  /** The timer is untouched, or replaced by one of a later epoch. */
  ghost predicate Rearmed(p: P.Pacemaker, q: P.Pacemaker) {
    (q.epoch == p.epoch && q.timer == p.timer && q.armed == p.armed) || Fresh(p, q)
  }

  lemma CertificateRearms(cfg: Config, r: Replica, qc: Option<QuorumCert>)
    requires Held(r.pacemaker)
    ensures var r' := ProcessCertificateQC(cfg, r, qc).0; Rearmed(r.pacemaker, r'.pacemaker) && Held(r'.pacemaker)
  {
    hide ProcessQC;
    hide Commit;
    hide UpdateLeaders;
  }

  lemma AbsorbRearms(cfg: Config, r: Replica, qc: Option<QuorumCert>, commitQC: Option<QuorumCert>,
                     tc: Option<TimeoutCert>)
    requires Held(r.pacemaker)
    ensures var r' := Absorb(cfg, r, qc, commitQC, tc); Rearmed(r.pacemaker, r'.pacemaker) && Held(r'.pacemaker)
  {
    hide ProcessCertificateQC;
    CertificateRearms(cfg, r, qc);
    CertificateRearms(cfg, ProcessCertificateQC(cfg, r, qc).0, commitQC);
  }

  lemma LocalTimeoutRearms(cfg: Config, k: Keyring, r: Replica, sig: Option<Blob>)
    requires Held(r.pacemaker)
    ensures Fresh(r.pacemaker, LocalTimeoutRound(cfg, k, r, sig).replica.pacemaker)
  {
    hide MayTimeout;
  }

  lemma RemoteTimeoutRearms(cfg: Config, k: Keyring, r: Replica, info: TimeoutInfo, sig: Option<Blob>)
    requires Held(r.pacemaker)
    ensures var o := ProcessRemoteTimeout(cfg, k, r, info, sig).0;
            Rearmed(r.pacemaker, o.replica.pacemaker) && Held(o.replica.pacemaker)
  {
    hide LocalTimeoutRound;
    hide P.TimeoutCertOf;
    LocalTimeoutRearms(cfg, k, r.(pacemaker := P.Stop(P.Collect(r.pacemaker, info))), sig);
  }

  lemma TimeoutRearms(cfg: Config, k: Keyring, r: Replica, m: TimeoutMsg, inputs: Inputs)
    requires Held(r.pacemaker)
    ensures Rearmed(r.pacemaker, HandleTimeout(cfg, k, r, m, inputs).replica.pacemaker)
  {
    hide Absorb;
    hide ProcessRemoteTimeout;
    AbsorbRearms(cfg, r, m.tmoInfo.highQc, m.highCommitQc, m.lastRoundTc);
    RemoteTimeoutRearms(cfg, k, Absorb(cfg, r, m.tmoInfo.highQc, m.highCommitQc, m.lastRoundTc), m.tmoInfo,
                        inputs.timeoutSig);
  }

  lemma VoteRearms(cfg: Config, r: Replica, m: VoteMsg, inputs: Inputs)
    requires Held(r.pacemaker)
    ensures Rearmed(r.pacemaker, HandleVote(cfg, r, m, inputs).replica.pacemaker)
  {
    hide ProcessVote;
    hide ProcessCertificateQC;
    hide ProcessQC;
    hide Commit;
    var r1 := ProcessTreeQC(r, m.highCommitQc);
    var (tree, qc) := ProcessVote(cfg.self, cfg.Quorum(), r1.tree, m, inputs.authorSig);
    CertificateRearms(cfg, r1.(tree := tree), qc);
  }

  lemma ProposalRearms(cfg: Config, k: Keyring, r: Replica, p: ProposalMsg, inputs: Inputs)
    requires Held(r.pacemaker)
    ensures Rearmed(r.pacemaker, HandleProposal(cfg, k, r, p, inputs).replica.pacemaker)
  {
    hide Absorb;
    hide BallotFor;
    hide Speculate;
    AbsorbRearms(cfg, r, p.block.qc, p.highCommitQc, p.lastRoundTc);
  }

  /** Any step leaves the timer alone or arms a fresh one; an accepted local timeout always re-arms. */
  lemma StepRearms(cfg: Config, k: Keyring, r: Replica, e: Event, inputs: Inputs)
    requires Held(r.pacemaker)
    ensures Rearmed(r.pacemaker, Step(cfg, k, r, e, inputs).replica.pacemaker)
    ensures e == LocalTimeoutEvent(r.pacemaker.epoch) ==>
              Fresh(r.pacemaker, Step(cfg, k, r, e, inputs).replica.pacemaker)
  {
    hide HandleProposal;
    hide HandleVote;
    hide HandleTimeout;
    hide LocalTimeoutRound;
    hide Speculate;
    match e
    case ProposalEvent(p) => ProposalRearms(cfg, k, r, p, inputs);
    case VoteEvent(m) => VoteRearms(cfg, r, m, inputs);
    case TimeoutEvent(m) => TimeoutRearms(cfg, k, r, m, inputs);
    case LocalTimeoutEvent(_) => LocalTimeoutRearms(cfg, k, r, inputs.timeoutSig);
    case BlockEvent(_) =>
    case BlockRequestEvent(_) =>
  }

  // ------------------------------------------------------------------------------ runs

  /** Exactly one timer is outstanding, armed or already queued, with the current epoch; every
      other queued timer event is older. */
  ghost predicate OneOutstanding(t: Timed) {
    var p := t.replica.pacemaker;
    && p.timer == Some(p.epoch) && p.armed <= {p.epoch}
    && t.queued[p.epoch] == (if p.epoch in p.armed then 0 else 1)
    && forall e :: e in t.queued ==> e <= p.epoch
  }

  lemma StartOutstanding(cfg: Config, inputs: Inputs)
    ensures OneOutstanding(Timed(Start(cfg, inputs).replica, multiset{}))
  { }

  lemma ActOutstanding(cfg: Config, t: Timed, a: TimedAction)
    requires OneOutstanding(t) && Possible(t, a)
    ensures OneOutstanding(Act(cfg, t, a))
    ensures Act(cfg, t, a).replica.pacemaker.epoch >= t.replica.pacemaker.epoch
    ensures a.Dispatch? && a.dispatched == t.replica.pacemaker.epoch ==>
              Act(cfg, t, a).replica.pacemaker.epoch > t.replica.pacemaker.epoch
  {
    hide Step;
    match a
    case Inbound(k, e, inputs) => StepRearms(cfg, k, t.replica, e, inputs);
    case Fire(_) =>
    case Dispatch(epoch, k, inputs) =>
      StepRearms(cfg, k, t.replica, LocalTimeoutEvent(epoch), inputs);
      StaleDispatch(cfg, k, t.replica, epoch, inputs);
  }

  /** A timer event of another epoch does nothing. */
  lemma StaleDispatch(cfg: Config, k: Keyring, r: Replica, epoch: nat, inputs: Inputs)
    ensures epoch != r.pacemaker.epoch ==> Step(cfg, k, r, LocalTimeoutEvent(epoch), inputs) == Outcome(r, [], [])
  { }

  ghost predicate IsTimedRun(cfg: Config, states: seq<Timed>, actions: seq<TimedAction>) {
    && |states| == |actions| + 1
    && (exists inputs :: states[0] == Timed(Start(cfg, inputs).replica, multiset{}))
    && forall i :: 0 <= i < |actions| ==>
         Possible(states[i], actions[i]) && states[i + 1] == Act(cfg, states[i], actions[i])
  }

  /** Between Start and Stop a retry is always pending, and only one. */
  lemma {:induction false} TimerAlwaysPending(cfg: Config, states: seq<Timed>, actions: seq<TimedAction>, i: nat)
    requires IsTimedRun(cfg, states, actions) && i < |states|
    ensures OneOutstanding(states[i])
  {
    hide Act;
    hide OneOutstanding;
    if i == 0 {
      var inputs :| states[0] == Timed(Start(cfg, inputs).replica, multiset{});
      StartOutstanding(cfg, inputs);
    } else {
      TimerAlwaysPending(cfg, states, actions, i - 1);
      ActOutstanding(cfg, states[i - 1], actions[i - 1]);
    }
  }

  lemma {:induction false} EpochsOnlyGrow(cfg: Config, states: seq<Timed>, actions: seq<TimedAction>, i: nat, j: nat)
    requires IsTimedRun(cfg, states, actions) && i <= j < |states|
    ensures states[i].replica.pacemaker.epoch <= states[j].replica.pacemaker.epoch
    decreases j - i
  {
    hide Act;
    if i < j {
      EpochsOnlyGrow(cfg, states, actions, i, j - 1);
      TimerAlwaysPending(cfg, states, actions, j - 1);
      ActOutstanding(cfg, states[j - 1], actions[j - 1]);
    }
  }

  /** A timer causes at most one local timeout, however long its event sits in the queue. */
  lemma TimerFiresOnce(cfg: Config, states: seq<Timed>, actions: seq<TimedAction>, i: nat, j: nat)
    requires IsTimedRun(cfg, states, actions) && i < j < |actions|
    requires actions[i].Dispatch? && actions[i].dispatched == states[i].replica.pacemaker.epoch
    requires actions[j].Dispatch? && actions[j].dispatched == actions[i].dispatched
    ensures states[j + 1].replica == states[j].replica
  {
    TimerAlwaysPending(cfg, states, actions, i);
    ActOutstanding(cfg, states[i], actions[i]);
    EpochsOnlyGrow(cfg, states, actions, i + 1, j);
    StaleDispatch(cfg, actions[j].at, states[j].replica, actions[j].dispatched, actions[j].dispatchInputs);
    hide Step;
  }

  /** After Stop no queued or armed timer is of the current epoch: nothing times out any more. */
  lemma StoppedForGood(t: Timed)
    requires OneOutstanding(t)
    ensures var p := P.Stop(t.replica.pacemaker); p.armed == {} && forall e :: e in t.queued ==> e < p.epoch
  { }
}
