/** Whole reconnects, of either session, that drop nothing: from any state at rest, a trigger is answered and both
    sessions come to rest again (zeared/_reconnect/_reconnect.py). */
module CleanReconnects {
  import opened Composition
  import opened Convergence
  import opened Link
  import opened LossTracking
  import opened Progress
  import opened Resting
  import opened Wrappers
  import ManagedSession
  import R = Reconnect

  // ---------------------------------------------------------------- the probe asleep throughout

  /** The link as the worker alone leaves it. */
  predicate LinkFollows(w: R.WorkerAt, link: LinkState, gap: bool) {
    match w
    case Opening(_) => link == Lost
    case BackingOff(_) => link == Lost
    case Swapping(_, _) => link == Lost
    case RestoreWalks => link == Lost
    case Noting => link == Lost
    case ClaimingLink => link == Lost && !gap
    case Republishing => link == Restoring && !gap
    case Committing => link == Restoring && !gap
    case _ => link == Up && !gap
  }

  predicate Clean(s: R.State) {
    && Alive(s) && s.probe.Sleeping? && !EarlyProbe(s)
    && LinkFollows(s.worker, s.shared.link, Gap(s.shared.routers, s.zids))
  }

  lemma WorkerKeepsClean(s: R.State, maxAttempts: Option<nat>)
    requires Reachable(s, maxAttempts) && Clean(s) && R.WorkerCan(s, WorkerLuck(s))
    ensures var s' := R.WorkerStep(s, WorkerLuck(s), maxAttempts);
      Clean(s') && s'.past.triggers == s.past.triggers
  {
    WorkerStepRank(s, WorkerLuck(s), maxAttempts);
    assert !Gap(s.zids, s.zids);
    match s.worker
    case AtLoop =>
    case Waiting =>
    case Clearing =>
    case Checking =>
    case Vetting =>
    case Raising =>
    case LosingLink =>
    case Opening(_) =>
    case BackingOff(_) =>
    case Swapping(_, _) =>
    case RestoreWalks =>
    case Noting =>
    case ClaimingLink =>
    case Republishing =>
    case Committing =>
    case Lowering =>
    case _ =>
  }

  /** The worker has done with the reconnect, or there was none. */
  predicate Done(s: R.State) {
    s.shared.phase == ManagedSession.IDLE && s.worker.Waiting?
  }

  lemma DoneIsAtRest(s: R.State)
    requires Clean(s) && Done(s)
    ensures AtRest(s)
  {
  }

  /** The next step of a reconnect, with the probe asleep. */
  lemma NextCleanStep(s: R.State, maxAttempts: Option<nat>) returns (step: R.Step)
    requires Reachable(s, maxAttempts) && Clean(s) && !Done(s)
    ensures R.Enabled(s, step) && OwnStep(s, step) && BusyStep(s, step)
    ensures var s' := R.Apply(s, step, maxAttempts); Clean(s') && s'.past.triggers == s.past.triggers
  {
    if s.shared.phase != ManagedSession.IDLE {
      step := PendingStep(s, maxAttempts);
      if step.Worker? {
        step := R.Worker(WorkerLuck(s));
      }
    } else {
      step := R.Worker(WorkerLuck(s));
    }
    if step.Worker? {
      WorkerKeepsClean(s, maxAttempts);
    }
  }

  // ---------------------------------------------------------------- the system

  ghost predicate CleanSystem(c: System) {
    SystemInv(c) && Clean(c.pub) && Clean(c.sub)
  }

  ghost predicate AllDone(c: System) {
    Done(c.pub) && Done(c.sub) && Drained(c)
  }

  predicate SameTriggers(c: System, c': System) {
    c'.pub.past.triggers == c.pub.past.triggers && c'.sub.past.triggers == c.sub.past.triggers
  }

  lemma NextOfThread(c: System, who: Who) returns (action: Action)
    requires CleanSystem(c) && !Done(Peer(c, who))
    ensures Composition.Can(c, action) && Own(c, action) && BusyAction(c, action)
    ensures var c' := Do(c, action); Clean(c'.pub) && Clean(c'.sub) && SameTriggers(c, c')
  {
    var step := NextCleanStep(Peer(c, who), Limit(c, who));
    action := OfThread(who, step, c.data.net, c.data.replies, c.gets);
    assert Surviving(c, c.data.net, c.data.replies, c.gets) == c;
    SteppedIs(c, who, step);
  }

  lemma NextOfData(c: System) returns (action: Action)
    requires !Drained(c)
    ensures Composition.Can(c, action) && Own(c, action) && BusyAction(c, action)
    ensures Do(c, action).pub == c.pub && Do(c, action).sub == c.sub
  {
    var heard := Attached(c.data);
    if c.data.sending != map[] {
      var k :| k in c.data.sending;
      action := Puts(k, heard);
    } else if c.data.toPut != {} {
      var x :| x in c.data.toPut;
      action := Reputs(x, heard);
    } else if c.data.net != multiset{} {
      var x :| x in c.data.net;
      action := OfData(Deliver(x));
    } else if c.data.replies != multiset{} {
      var x :| x in c.data.replies;
      action := OfData(DeliverReply(x));
    } else {
      action := Answers(heard);
    }
    DataLeavesThreads(c, action);
  }

  lemma NextAction(c: System) returns (action: Action)
    requires CleanSystem(c) && !AllDone(c)
    ensures Composition.Can(c, action) && Tracks(c, Do(c, action))
    ensures var c' := Do(c, action); CleanSystem(c') && SameTriggers(c, c') && Work(c') < Work(c)
  {
    if !Done(c.pub) {
      action := NextOfThread(c, Publisher);
    } else if !Done(c.sub) {
      action := NextOfThread(c, Subscriber);
    } else {
      action := NextOfData(c);
    }
    ActionWork(c, action);
    OwnKeepsSystemInv(c, action);
  }

  lemma Prepend(c: System, rest: seq<System>) returns (run: seq<System>)
    requires IsTrackedRun(rest) && Tracks(c, rest[0])
    ensures IsTrackedRun(run) && run == [c] + rest
  {
    run := [c] + rest;
    forall i | 0 <= i < |run| - 1 ensures Tracks(run[i], run[i+1]) {
      if i > 0 {
        var m := i - 1;
        assert run[i] == rest[m] && run[i+1] == rest[m+1];
        assert Tracks(rest[m], rest[m+1]);
      } else {
        assert run[0] == c && run[1] == rest[0];
      }
    }
  }

  lemma AllDoneIsDelivered(c: System)
    requires CleanSystem(c) && AllDone(c)
    ensures AtRest(c.pub) && AtRest(c.sub) && Delivered(c)
  {
    DoneIsAtRest(c.pub);
    DoneIsAtRest(c.sub);
    CoveredIsDelivered(c);
  }

  lemma {:induction false} Completes(c: System) returns (run: seq<System>)
    requires CleanSystem(c)
    ensures IsTrackedRun(run) && run[0] == c && SameTriggers(c, run[|run|-1])
    ensures CleanSystem(run[|run|-1]) && AllDone(run[|run|-1])
    decreases Work(c)
  {
    if AllDone(c) {
      run := [c];
    } else {
      var action := NextAction(c);
      var rest := Completes(Do(c, action));
      run := Prepend(c, rest);
    }
  }

  lemma TriggerStarts(c: System, who: Who, sender: R.Sender) returns (c': System)
    requires SystemInv(c) && AtRest(c.pub) && AtRest(c.sub) && Alive(c.pub) && Alive(c.sub)
    requires sender !in Peer(c, who).setting
    ensures Tracks(c, c') && CleanSystem(c')
    ensures Peer(c', who).past.triggers == Peer(c, who).past.triggers + 1
  {
    var action := OfThread(who, R.Trigger(sender), c.data.net, c.data.replies, c.gets);
    c' := Do(c, action);
    assert Surviving(c, c.data.net, c.data.replies, c.gets) == c;
    SteppedIs(c, who, R.Trigger(sender));
    assert Tracks(c, c');
    TracksKeepsSystemInv(c, c');
  }

  lemma IdleReopens(c: System, who: Who)
    requires SystemInv(c) && Peer(c, who).shared.phase == ManagedSession.IDLE
    ensures Peer(c, who).past.triggers == Peer(c, who).past.reopens
  {
  }

  /** From any state at rest, for either session: a trigger, its whole reconnect and everything it restores, in a run
      that drops nothing and ends at rest with everything cached delivered. */
  lemma ReconnectCompletes(c: System, who: Who, sender: R.Sender) returns (run: seq<System>)
    requires SystemInv(c) && AtRest(c.pub) && AtRest(c.sub) && Alive(c.pub) && Alive(c.sub)
    requires sender !in Peer(c, who).setting
    ensures IsTrackedRun(run) && run[0] == c
    ensures var c' := run[|run|-1];
      && AtRest(c'.pub) && AtRest(c'.sub) && Drained(c') && Delivered(c')
      && Peer(c', who).past.reopens == Peer(c, who).past.reopens + 1
  {
    var c1 := TriggerStarts(c, who, sender);
    var rest := Completes(c1);
    run := Prepend(c, rest);
    AllDoneIsDelivered(run[|run|-1]);
    IdleReopens(c, who);
    IdleReopens(run[|run|-1], who);
  }

  /** A fresh pair is such a state. */
  lemma FreshIsAtRest(c: System)
    requires Composition.Init(c) && c.pub.shared.routers == c.pub.zids && c.sub.shared.routers == c.sub.zids
    ensures SystemInv(c) && AtRest(c.pub) && AtRest(c.sub) && Alive(c.pub) && Alive(c.sub)
  {
    InitTracks(c);
    InitCovers(c);
    assert !Gap(c.pub.zids, c.pub.zids) && !Gap(c.sub.zids, c.sub.zids);
  }
}
