/** The handlers written out one thread at a time, as uninterrupted runs of the interleaved systems, and the probe
    of the reconnect system as the one convergence is proved over
    (zeared/_reconnect/_link.py, zeared/_managed_session/_managed_session.py, zeared/retention.py). */
module Handlers {
  import opened Link
  import opened ManagedSession
  import opened Wrappers
  import Q = Queryables
  import R = Reconnect

  // ---------------------------------------------------------------- one trigger, one teardown

  /** `_trigger_reconnect` with nothing in between: the contract of `Session.TriggerReconnect`. */
  lemma TriggerAlone(s: R.State, sender: R.Sender, maxAttempts: Option<nat>)
    requires sender !in s.setting
    ensures var s1 := R.Apply(s, R.Trigger(sender), maxAttempts);
      if Wins(s.shared) then
        && R.Enabled(s1, R.SetSignal(sender))
        && var s2 := R.Apply(s1, R.SetSignal(sender), maxAttempts);
           s2.shared == Triggered(s.shared).(signal := true) && s2.setting == s.setting
      else s1 == s
  {
  }

  /** And that of `Session.Teardown`. */
  lemma TeardownAlone(s: R.State, maxAttempts: Option<nat>)
    ensures var s1 := R.Apply(s, R.BeginTeardown, maxAttempts);
      && R.Enabled(s1, R.EndTeardown)
      && var s2 := R.Apply(s1, R.EndTeardown, maxAttempts);
         s2.shared == s.shared.(cancel := true, signal := true) && s2.tearing == s.tearing
  {
  }

  // ---------------------------------------------------------------- one tick

  /** What the probe meets outside: whether the raw session is dead, and whether its routers can be read. */
  datatype World = World(dead: bool, readable: bool)

  function Met(p: R.ProbeAt, world: World): R.Luck {
    match p
    case TestingAlive => R.Dead(world.dead)
    case Polling => if world.readable then R.Smooth else R.Unreadable
    case _ => R.Smooth
  }

  /** The probe run on alone to the end of its iteration, for `n` steps at most. */
  function Alone(s: R.State, world: World, n: nat): R.State
    decreases n
  {
    if n == 0 || s.probe.Sleeping? || s.probe.Stopped? then s
    else Alone(R.ProbeStep(s, Met(s.probe, world)), world, n - 1)
  }

  /** From its claim on, the tick ends with the link committed, if the claim was its to make. */
  lemma ClaimAlone(s: R.State, world: World)
    requires s.probe.ClaimingRestore?
    ensures Alone(s, world, 4).probe.Sleeping?
    ensures Alone(s, world, 4).shared ==
      if s.shared.link == Lost then CommittedLink(ClaimedLink(s.shared)) else s.shared
  {
    var s1 := R.ProbeStep(s, R.Smooth);
    if s.shared.link == Lost {
      var s2 := R.ProbeStep(s1, R.Smooth);
      var s3 := R.ProbeStep(s2, R.Smooth);
      assert Alone(s3, world, 1) == R.ProbeStep(s3, R.Smooth);
    }
  }

  /** A tick nothing interrupts is the contract of `Session.CheckLink`. */
  lemma TickAlone(s: R.State, world: World)
    requires s.probe.Polling?
    ensures var s' := Alone(s, world, 7);
      s'.shared == Ticked(s.shared, world.readable, s.zids) && s'.probe.Sleeping?
  {
    if world.readable {
      var s1 := R.ProbeStep(s, R.Smooth);
      var s2 := R.ProbeStep(s1, R.Smooth);
      match Judge(s.shared.link, s.shared.routers, s.zids)
      case Steady =>
      case Loss => assert Alone(s2, world, 5) == Alone(R.ProbeStep(s2, R.Smooth), world, 4);
      case Bounce => ClaimAlone(R.ProbeStep(s2, R.Smooth), world);
      case Return =>
        ClaimAlone(s2, world);
        AloneIsDone(s2, world, 4);
    }
  }

  lemma {:induction false} AloneIsDone(s: R.State, world: World, n: nat)
    requires Alone(s, world, n).probe.Sleeping?
    ensures Alone(s, world, n + 1) == Alone(s, world, n)
    decreases n
  {
    if n > 0 && !s.probe.Sleeping? && !s.probe.Stopped? {
      AloneIsDone(R.ProbeStep(s, Met(s.probe, world)), world, n - 1);
    }
  }

  /** What one iteration of the probe loop does to the session when nothing interrupts it; `None` when it leaves. */
  function Iterated(sh: Shared, world: World, zids: set<Zid>): Option<Shared> {
    if sh.cancel || sh.phase == DEAD then None
    else if sh.phase == RECONNECTING then Some(sh)
    else if world.dead then Some(Triggered(sh).(signal := true))
    else if sh.restoring then Some(sh)
    else Some(Ticked(sh, world.readable, zids))
  }

  /** An iteration run alone ends the thread on a cancelled or DEAD session, leaves a RECONNECTING one and one that
      is restoring alone, triggers on a dead one, and else is one tick. */
  lemma IterationAlone(s: R.State, world: World)
    requires s.probe.Sleeping?
    ensures var s' := Alone(R.ProbeStep(s, R.Smooth), world, 11);
      match Iterated(s.shared, world, s.zids)
      case None => s'.probe.Stopped? && s'.shared == s.shared
      case Some(sh) => s'.probe.Sleeping? && s'.shared == sh
  {
    if !s.shared.cancel && s.shared.phase == IDLE {
      var s1 := R.ProbeStep(s, R.Smooth);
      var s2 := R.ProbeStep(s1, R.Smooth);
      var s3 := R.ProbeStep(s2, R.Smooth);
      var s4 := R.ProbeStep(s3, Met(s3.probe, world));
      assert Alone(s1, world, 11) == Alone(s2, world, 10) == Alone(s3, world, 9) == Alone(s4, world, 8);
      if world.dead {
        var s5 := R.ProbeStep(s4, R.Smooth);
        assert Alone(s4, world, 8) == Alone(s5, world, 7) == R.ProbeStep(s5, R.Smooth);
      } else if !s.shared.restoring {
        TickAlone(R.ProbeStep(s4, R.Smooth), world);
      }
    }
  }

  // ---------------------------------------------------------------- the same probe

  function ProbeOf(p: R.ProbeAt): Probe {
    match p
    case Deciding(before, zids) => Read(before, zids)
    case MarkingLost(back) => Losing(back)
    case ClaimingRestore => Claiming
    case Republishes => Claimed
    case Walking => Working
    case Closing => Working
    case _ => Idle
  }

  /** The reconnect system's session as link detection sees it. */
  function SessionOf(s: R.State): Link.Session {
    Session(s.zids, s.shared.routers, s.shared.link, ProbeOf(s.probe))
  }

  /** The link move a step makes, if any. */
  function MoveOf(s: R.State, step: R.Step): Option<Move> {
    match step
    case Detach => Some(Detaches)
    case Attach(zids) => Some(Attaches(zids))
    case Drift(zids) => Some(Drifts(zids))
    case Probe(luck) =>
      (match s.probe
       case Polling => if luck.Unreadable? then None else Some(Ticks)
       case Deciding(_, _) => Some(Decides)
       case MarkingLost(_) => Some(Loses)
       case ClaimingRestore => Some(Claims)
       case Republishes => Some(Starts)
       case Closing => Some(Finishes)
       case _ => None)
    case _ => None
  }

  /** The worker leaves the link alone. */
  predicate HandsOff(w: R.WorkerAt) {
    w.AtLoop? || w.Waiting? || w.Clearing? || w.Checking? || w.Vetting? || w.Raising? || w.Lowering? || w.Exited?
  }

  lemma ProbeStepIsALinkMove(s: R.State, luck: R.Luck)
    requires R.ProbeCan(s, luck)
    ensures match MoveOf(s, R.Probe(luck))
      case None => SessionOf(R.ProbeStep(s, luck)) == SessionOf(s)
      case Some(move) => Can(SessionOf(s), move) && SessionOf(R.ProbeStep(s, luck)) == Moved(SessionOf(s), move)
  {
    match s.probe
    case Sleeping =>
    case TestingDead =>
    case TestingReconnecting =>
    case TestingAlive =>
    case Triggering =>
    case Signalling =>
    case TestingFlag =>
    case Polling =>
    case Deciding(_, _) =>
    case MarkingLost(_) =>
    case ClaimingRestore =>
    case Republishes =>
    case Walking =>
    case Closing =>
  }

  /** Outside the worker's link work, every step of the reconnect system is a move of link detection's session, or
      leaves that session alone: what is proved of its moves holds of these. */
  lemma StepIsALinkMove(s: R.State, step: R.Step, maxAttempts: Option<nat>)
    requires R.Enabled(s, step) && (step.Worker? ==> HandsOff(s.worker))
    ensures var s' := R.Apply(s, step, maxAttempts);
      match MoveOf(s, step)
      case None => SessionOf(s') == SessionOf(s)
      case Some(move) => Can(SessionOf(s), move) && SessionOf(s') == Moved(SessionOf(s), move)
  {
    if step.Probe? {
      ProbeStepIsALinkMove(s, step.luck);
    }
  }

  // ---------------------------------------------------------------- one declaration

  /** The lock holder's declaring loop, to its end: the declaration of template `failAt` raises, if any does. */
  function Declaring(s: Q.State, templates: nat, failAt: Option<nat>): Q.State
    requires s.lock.Some? && s.next <= templates
    decreases templates - s.next
  {
    if s.next == templates then Q.Apply(s, Q.Leave, templates)
    else if failAt == Some(s.next) then Q.Apply(s, Q.DeclareFails, templates)
    else Declaring(Q.Apply(s, Q.Declare, templates), templates, failAt)
  }

  lemma {:induction false} DeclaringEnds(s: Q.State, templates: nat, failAt: Option<nat>)
    requires s.lock.Some? && s.next <= templates && |s.handles| == s.next
    requires Q.InOrder(s.handles) && Q.AllOn(s.handles, s.raw) && (failAt.Some? ==> s.next <= failAt.value)
    ensures var s' := Declaring(s, templates, failAt);
      var raised := failAt.Some? && failAt.value < templates;
      && s'.lock == None && s'.raw == s.raw && s'.redeclaring == s.redeclaring && s'.waiting == s.waiting
      && s'.worker == (if s.lock == Some(Q.Worker) then Q.LoweringFlag else s.worker)
      && Q.InOrder(s'.handles) && Q.AllOn(s'.handles, s.raw) && |s'.handles| == if raised then 0 else templates
    decreases templates - s.next
  {
    if s.next < templates && failAt != Some(s.next) {
      DeclaringEnds(Q.Apply(s, Q.Declare, templates), templates, failAt);
    }
  }

  /** A store that nothing interrupts, from its first look: the contract of `Declarations.EnsureQueryables`. */
  lemma EnsureAlone(s: Q.State, thread: Q.Thread, templates: nat, failAt: Option<nat>)
    requires Q.LockInv(s, templates) && s.lock == None && Q.Enabled(s, Q.Peek(thread), templates)
    ensures var s0 := Q.Apply(s, Q.Peek(thread), templates);
      if s.handles != [] then s0 == s
      else
        && Q.Enabled(s0, Q.Enter(thread), templates)
        && var s1 := Q.Apply(s0, Q.Enter(thread), templates);
           if s.redeclaring then s1 == s
           else
             var s' := Declaring(s1, templates, failAt);
             var raised := failAt.Some? && failAt.value < templates;
             && s'.lock == None && s'.redeclaring == s.redeclaring && s'.waiting == s.waiting
             && Q.InOrder(s'.handles) && Q.AllOn(s'.handles, s.raw) && |s'.handles| == if raised then 0 else templates
  {
    var s0 := Q.Apply(s, Q.Peek(thread), templates);
    if s.handles == [] {
      assert s0.waiting - {thread} == s.waiting;
      if !s.redeclaring {
        DeclaringEnds(Q.Apply(s0, Q.Enter(thread), templates), templates, failAt);
      }
    }
  }

  /** The worker's redeclaration: the contract of `Declarations.RedeclareQueryables`. */
  lemma RedeclareAlone(s: Q.State, templates: nat, failAt: Option<nat>)
    requires Q.LockInv(s, templates) && Q.Enabled(s, Q.Take, templates)
    ensures var s1 := Q.Apply(s, Q.Take, templates);
      if s.handles == [] then s1.handles == [] && s1.worker.Resting?
      else
        var s3 := Q.Apply(Q.Apply(s1, Q.Undeclare, templates), Q.Relock, templates);
        var s4 := Declaring(s3, templates, failAt);
        var raised := failAt.Some? && failAt.value < templates;
        && Q.Enabled(s4, Q.LowerFlag, templates)
        && var s' := Q.Apply(s4, Q.LowerFlag, templates);
           && s'.lock == None && !s'.redeclaring && s'.worker.Resting?
           && Q.InOrder(s'.handles) && Q.AllOn(s'.handles, s.raw) && |s'.handles| == if raised then 0 else templates
  {
    if s.handles != [] {
      var s1 := Q.Apply(s, Q.Take, templates);
      var s3 := Q.Apply(Q.Apply(s1, Q.Undeclare, templates), Q.Relock, templates);
      DeclaringEnds(s3, templates, failAt);
    }
  }
}
