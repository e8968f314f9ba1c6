/** Where every schedule of the composed system's own steps ends: both sessions at peace and everything delivered,
    reconnects under way at its start included (zeared/_reconnect/_reconnect.py, zeared/_reconnect/_link.py). */
module Resting {
  import opened Composition
  import opened Convergence
  import opened FetchTracking
  import opened Link
  import opened LossTracking
  import opened Progress
  import opened Wrappers
  import ManagedSession
  import R = Reconnect

  // ---------------------------------------------------------------- nothing left to do

  /** Some thread, message or get still has something to do. */
  ghost predicate CanWork(c: System) {
    exists action :: Composition.Can(c, action) && Own(c, action) && BusyAction(c, action)
  }

  /** No reconnect to answer, the worker waiting, the link up, and a probe that will find nothing. */
  ghost predicate AtPeace(s: R.State) {
    && s.shared.phase == ManagedSession.IDLE && s.worker.Waiting? && s.shared.link == Up
    && !Gap(s.shared.routers, s.zids) && ProbeWork(s) == 0
  }

  lemma Works(c: System, action: Action)
    requires Composition.Can(c, action) && Own(c, action) && BusyAction(c, action)
    ensures CanWork(c)
  {
  }

  lemma ThreadWorks(c: System, who: Who, step: R.Step)
    requires R.Enabled(Peer(c, who), step) && OwnStep(Peer(c, who), step) && BusyStep(Peer(c, who), step)
    ensures CanWork(c)
  {
    Works(c, OfThread(who, step, c.data.net, c.data.replies, c.gets));
  }

  /** A worker's step with nothing failing. */
  function WorkerLuck(s: R.State): R.Luck {
    if s.worker.Opening? then R.Opened(0, {0}) else R.Smooth
  }

  lemma PendingStep(s: R.State, maxAttempts: Option<nat>) returns (step: R.Step)
    requires Reachable(s, maxAttempts) && Alive(s) && s.shared.phase == ManagedSession.RECONNECTING
    ensures R.Enabled(s, step) && OwnStep(s, step) && BusyStep(s, step)
    ensures step.Probe? ==> s.probe.Signalling?
  {
    step := R.PendingReconnectAdvances(s, maxAttempts);
    match step
    case Worker(_) => step := R.Worker(WorkerLuck(s));
    case Probe(_) => step := R.Probe(R.Smooth);
    case _ =>
  }

  /** A session not at peace has a step with something to do. */
  lemma NextOwnStep(s: R.State, maxAttempts: Option<nat>) returns (step: R.Step)
    requires Reachable(s, maxAttempts) && Alive(s)
    requires s.shared.phase != ManagedSession.IDLE || !s.worker.Waiting? || ProbeWork(s) > 0
    ensures R.Enabled(s, step) && OwnStep(s, step) && BusyStep(s, step)
    ensures step.Probe? ==> s.probe.Signalling? || (s.shared.phase == ManagedSession.IDLE && s.worker.Waiting?)
  {
    if s.shared.phase != ManagedSession.IDLE {
      step := PendingStep(s, maxAttempts);
    } else if !s.worker.Waiting? {
      step := R.Worker(WorkerLuck(s));
    } else {
      step := R.Probe(if s.probe.TestingAlive? then R.Dead(false) else R.Smooth);
    }
  }

  lemma NoProbeWork(s: R.State, maxAttempts: Option<nat>)
    requires Reachable(s, maxAttempts) && Alive(s) && s.shared.phase == ManagedSession.IDLE && s.worker.Waiting?
    requires ProbeWork(s) == 0
    ensures AtPeace(s)
    ensures !s.probe.Republishes? && !s.probe.Walking? && !s.probe.MarkingLost? && !s.probe.ClaimingRestore?
    ensures s.probe.Deciding? ==> !Gap(s.probe.before, s.probe.zids)
  {
    assert R.Tokens(s) == 0;
  }

  lemma AtPeaceOwesNothing(s: R.State, maxAttempts: Option<nat>)
    requires Reachable(s, maxAttempts) && Alive(s) && AtPeace(s)
    ensures !Tracked(s) && !FetchTracked(s)
  {
    NoProbeWork(s, maxAttempts);
  }

  lemma DataIsDrained(c: System)
    requires !CanWork(c)
    ensures Drained(c)
  {
    var heard := Attached(c.data);
    if c.data.sending != map[] {
      var k :| k in c.data.sending;
      Works(c, Puts(k, heard));
    } else if c.data.toPut != {} {
      var x :| x in c.data.toPut;
      Works(c, Reputs(x, heard));
    } else if c.data.net != multiset{} {
      var x :| x in c.data.net;
      Works(c, OfData(Deliver(x)));
    } else if c.data.replies != multiset{} {
      var x :| x in c.data.replies;
      Works(c, OfData(DeliverReply(x)));
    } else if c.gets > 0 {
      Works(c, Answers(heard));
    }
  }

  lemma ThreadIsAtPeace(c: System, who: Who)
    requires AliveSystem(c) && !CanWork(c)
    ensures AtPeace(Peer(c, who))
  {
    var s := Peer(c, who);
    if s.shared.phase != ManagedSession.IDLE || !s.worker.Waiting? || ProbeWork(s) > 0 {
      var step := NextOwnStep(s, Limit(c, who));
      ThreadWorks(c, who, step);
    }
    NoProbeWork(s, Limit(c, who));
  }

  /** When nothing has anything left to do, both sessions are at peace, nothing is on its way, and everything cached has
      been delivered. */
  lemma DoneIsDelivered(c: System)
    requires SystemInv(c) && AliveSystem(c) && !CanWork(c)
    ensures AtPeace(c.pub) && AtPeace(c.sub) && Drained(c) && Delivered(c)
    ensures !c.pub.owed.push && !c.sub.owed.pull
  {
    ThreadIsAtPeace(c, Publisher);
    ThreadIsAtPeace(c, Subscriber);
    DataIsDrained(c);
    AtPeaceOwesNothing(c.pub, c.limits.pub);
    AtPeaceOwesNothing(c.sub, c.limits.sub);
    CoveredIsDelivered(c);
  }

  // ---------------------------------------------------------------- only an early probe drops anything

  /** A probe that was past its flag test when the reconnect under way raised the flag. */
  predicate EarlyProbe(s: R.State) {
    R.FlagUp(s.worker) && s.past.early
  }

  lemma PushDropNeedsEarly(s: R.State, step: R.Step, maxAttempts: Option<nat>)
    requires Reachable(s, maxAttempts) && Alive(s) && EarlyInv(s) && R.Enabled(s, step) && OwnStep(s, step)
    requires DropsPush(s, step, maxAttempts)
    ensures EarlyProbe(s)
  {
    match step
    case Worker(_) =>
    case Probe(_) =>
  }

  lemma PullDropNeedsEarly(s: R.State, step: R.Step, maxAttempts: Option<nat>)
    requires Reachable(s, maxAttempts) && Alive(s) && R.Enabled(s, step) && OwnStep(s, step)
    requires (s.owed.pull ==> FetchTracked(s)) && DropsPull(s, step, maxAttempts)
    ensures EarlyProbe(s)
  {
    match step
    case Worker(_) =>
    case Probe(_) =>
  }

  lemma UnheardDropNeedsEarly(c: System, action: Action)
    requires TrackInv(c) && AliveSystem(c) && Composition.Can(c, action) && LosesUnheard(c, action)
    ensures EarlyProbe(c.pub) || EarlyProbe(c.sub)
  {
  }

  /** Of the system's own steps only those beside an early probe drop anything. */
  lemma DropNeedsEarly(c: System, action: Action)
    requires TrackInv(c) && AliveSystem(c) && Composition.Can(c, action) && Own(c, action) && Drops(c, action)
    ensures EarlyProbe(c.pub) || EarlyProbe(c.sub)
  {
    if LosesUnheard(c, action) {
      UnheardDropNeedsEarly(c, action);
    } else if action.who.Publisher? {
      PushDropNeedsEarly(c.pub, action.step, c.limits.pub);
    } else {
      PullDropNeedsEarly(c.sub, action.step, c.limits.sub);
    }
  }

  // ---------------------------------------------------------------- every schedule

  ghost predicate QuietRun(c: System, actions: seq<Action>)
    decreases |actions|
  {
    actions == [] || (
      && Composition.Can(c, actions[0]) && Own(c, actions[0])
      && QuietRun(Do(c, actions[0]), actions[1..]))
  }

  ghost function After(c: System, actions: seq<Action>): System
    requires QuietRun(c, actions)
    decreases |actions|
  {
    if actions == [] then c else After(Do(c, actions[0]), actions[1..])
  }

  ghost function BusyActions(c: System, actions: seq<Action>): nat
    requires QuietRun(c, actions)
    decreases |actions|
  {
    if actions == [] then 0
    else (if BusyAction(c, actions[0]) then 1 else 0) + BusyActions(Do(c, actions[0]), actions[1..])
  }

  /** No probe is early in any state along the way. */
  ghost predicate NoneEarly(c: System, actions: seq<Action>)
    requires QuietRun(c, actions)
    decreases |actions|
  {
    && !EarlyProbe(c.pub) && !EarlyProbe(c.sub)
    && (actions == [] || NoneEarly(Do(c, actions[0]), actions[1..]))
  }

  /** Every schedule of the system's own steps, with reconnects and restores of either side under way: only so many of
      its steps have something to do, whatever their order. */
  lemma {:induction false} EveryScheduleRests(c: System, actions: seq<Action>)
    requires AliveSystem(c) && QuietRun(c, actions)
    ensures BusyActions(c, actions) <= Work(c)
    ensures AliveSystem(After(c, actions)) && After(c, actions).data.cache == c.data.cache
    decreases |actions|
  {
    if actions != [] {
      ActionWork(c, actions[0]);
      EveryScheduleRests(Do(c, actions[0]), actions[1..]);
    }
  }

  lemma OwnKeepsSystemInv(c: System, action: Action)
    requires SystemInv(c) && AliveSystem(c) && Composition.Can(c, action) && Own(c, action)
    requires !EarlyProbe(c.pub) && !EarlyProbe(c.sub)
    ensures SystemInv(Do(c, action)) && Tracks(c, Do(c, action))
  {
    if Drops(c, action) {
      DropNeedsEarly(c, action);
    }
    assert Tracks(c, Do(c, action));
    TracksKeepsSystemInv(c, Do(c, action));
  }

  /** And one that leaves nothing to do ends with both sessions at peace and everything cached delivered, unless some
      probe was early on the way. */
  lemma {:induction false} EveryScheduleDelivers(c: System, actions: seq<Action>)
    requires SystemInv(c) && AliveSystem(c) && QuietRun(c, actions) && NoneEarly(c, actions)
    ensures var c' := After(c, actions);
      !CanWork(c') ==> AtPeace(c'.pub) && AtPeace(c'.sub) && Drained(c') && Delivered(c')
    decreases |actions|
  {
    if actions == [] {
      if !CanWork(c) {
        DoneIsDelivered(c);
      }
    } else {
      OwnKeepsSystemInv(c, actions[0]);
      ActionWork(c, actions[0]);
      EveryScheduleDelivers(Do(c, actions[0]), actions[1..]);
    }
  }
}
