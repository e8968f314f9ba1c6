/** The composed system comes to rest: how much work its threads have left, and where every schedule of their own
    steps ends (zeared/_reconnect/_reconnect.py, zeared/_reconnect/_link.py). */
module Progress {
  import opened Composition
  import opened Convergence
  import opened Handlers
  import opened Link
  import opened LossTracking
  import opened Wrappers
  import ManagedSession
  import R = Reconnect
  import Schedules

  // ---------------------------------------------------------------- one session's own steps

  /** Not torn down nor given up, attached unless a reconnect is to come, and with no further trigger in the probe. */
  predicate Alive(s: R.State) {
    && !s.shared.cancel && !s.probe.Triggering? && !s.worker.GivingUp? && (s.worker.Swapping? ==> s.worker.zids != {})
    && (s.shared.phase == ManagedSession.RECONNECTING || (s.shared.phase == ManagedSession.IDLE && s.zids != {}))
  }

  /** A thread's own step, with nothing failing and no router coming or going. */
  predicate OwnStep(s: R.State, step: R.Step) {
    match step
    case SetSignal(_) => true
    case Worker(luck) => luck == R.Smooth || (s.worker.Opening? && luck.Opened? && luck.zids != {})
    case Probe(luck) => luck == R.Smooth || luck == R.Dead(false)
    case _ => false
  }

  /** How far the worker is from waiting for the next trigger. */
  ghost function Rank(s: R.State): nat {
    if s.shared.phase == ManagedSession.IDLE then
      match s.worker
      case RestoreWalks => 7
      case Noting => 6
      case ClaimingLink => 5
      case Republishing => 4
      case Committing => 3
      case Lowering => 2
      case AtLoop => 1
      case _ => 0
    else 8 + R.Distance(s)
  }

  // ---------------------------------------------------------------- the probe

  /** Probe steps from a sleep to the next one, if there is anything to do: with the link so, and a gap or not. */
  function FromSleep(s: R.State, link: LinkState, gap: bool): nat {
    if s.shared.phase != ManagedSession.IDLE || s.shared.restoring then 0
    else if link == Lost then 11
    else if gap then 12
    else 0
  }

  function FromClosing(s: R.State, link: LinkState, gap: bool): nat {
    1 + FromSleep(s, if link == Restoring then Up else link, gap)
  }

  function FromClaim(s: R.State, link: LinkState, gap: bool): nat {
    if link == Lost then 3 + FromClosing(s, Restoring, gap) else 1 + FromSleep(s, link, gap)
  }

  function FromDeciding(s: R.State, before: set<Zid>, zids: set<Zid>, gap: bool): nat {
    match Judge(s.shared.link, before, zids)
    case Steady => (var rest := FromSleep(s, s.shared.link, gap); if rest == 0 then 0 else 1 + rest)
    case Loss => 2 + FromSleep(s, Lost, gap)
    case Bounce => 2 + FromClaim(s, Lost, gap)
    case Return => 1 + FromClaim(s, s.shared.link, gap)
  }

  function Then(rest: nat, steps: nat): nat {
    if rest == 0 then 0 else rest + steps
  }

  function FromPolling(s: R.State): nat {
    Then(FromDeciding(s, s.shared.routers, s.zids, false), 1)
  }

  /** How many of the probe's steps have something to do, if no other thread steps. */
  function ProbeWork(s: R.State): nat {
    var sh, gap := s.shared, Gap(s.shared.routers, s.zids);
    match s.probe
    case Polling => FromPolling(s)
    case Deciding(before, zids) => FromDeciding(s, before, zids, gap)
    case MarkingLost(back) => if back then 1 + FromClaim(s, Lost, gap) else 1 + FromSleep(s, Lost, gap)
    case ClaimingRestore => FromClaim(s, sh.link, gap)
    case Republishes => 2 + FromClosing(s, sh.link, gap)
    case Walking => 1 + FromClosing(s, sh.link, gap)
    case Closing => FromClosing(s, sh.link, gap)
    case TestingFlag => if sh.restoring then 0 else Then(FromPolling(s), 1)
    case TestingAlive => if sh.restoring then 0 else Then(FromPolling(s), 2)
    case TestingReconnecting => FromTest(s, 3)
    case TestingDead => FromTest(s, 4)
    case Sleeping => FromTest(s, 5)
    case _ => 0
  }

  function FromTest(s: R.State, steps: nat): nat {
    if s.shared.phase != ManagedSession.IDLE || s.shared.restoring then 0 else Then(FromPolling(s), steps)
  }

  lemma ProbeWorkIsSmall(s: R.State)
    ensures ProbeWork(s) < 32
  {
  }

  /** The step is not just the next round of a probe with nothing to do. */
  predicate BusyStep(s: R.State, step: R.Step) {
    step.Probe? ==> ProbeWork(s) > 0 || s.probe.Signalling?
  }

  lemma SleepAgrees(s: R.State)
    requires LinkUpOrLost(s) && (s.shared.phase == ManagedSession.IDLE ==> s.zids != {})
    ensures FromTest(s, 5) == FromSleep(s, s.shared.link, Gap(s.shared.routers, s.zids))
  {
  }

  predicate LinkUpOrLost(s: R.State) {
    s.shared.phase == ManagedSession.IDLE && !s.shared.restoring ==> s.shared.link != Restoring
  }

  ghost predicate WorksOff(s: R.State, s': R.State) {
    if ProbeWork(s) > 0 then ProbeWork(s') < ProbeWork(s) else ProbeWork(s') == 0
  }

  /** The probe is between two ticks of link detection. */
  predicate BetweenTicks(p: R.ProbeAt) {
    p.Sleeping? || p.TestingDead? || p.TestingReconnecting? || p.TestingAlive? || p.TestingFlag?
  }

  lemma WakeWorksOff(s: R.State, luck: R.Luck)
    requires Alive(s) && R.ProbeCan(s, luck)
    requires s.probe.Sleeping? || s.probe.TestingDead? || s.probe.TestingReconnecting?
    ensures WorksOff(s, R.ProbeStep(s, luck))
  {
    match s.probe
    case Sleeping =>
    case TestingDead =>
    case TestingReconnecting =>
  }

  lemma TestWorksOff(s: R.State, luck: R.Luck)
    requires Alive(s) && R.ProbeCan(s, luck) && (luck == R.Smooth || luck == R.Dead(false))
    requires s.probe.TestingAlive? || s.probe.TestingFlag?
    ensures WorksOff(s, R.ProbeStep(s, luck))
  {
    match s.probe
    case TestingAlive =>
    case TestingFlag =>
  }

  lemma PollWorksOff(s: R.State, luck: R.Luck)
    requires s.probe.Polling? && (luck == R.Smooth || luck == R.Dead(false))
    ensures WorksOff(s, R.ProbeStep(s, luck))
  {
    assert !Gap(s.zids, s.zids);
  }

  lemma VerdictWorksOff(s: R.State, luck: R.Luck)
    requires Alive(s) && R.LinkInv(s) && ClaimInv(s) && s.probe.Deciding?
    ensures WorksOff(s, R.ProbeStep(s, luck))
  {
    var s' := R.ProbeStep(s, luck);
    if s'.probe.Sleeping? {
      SleepAgrees(s');
    }
  }

  lemma RestoreWorksOff(s: R.State, luck: R.Luck)
    requires Alive(s) && R.LinkInv(s) && ClaimInv(s) && R.InLinkWork(s.probe) && !s.probe.Polling? && !s.probe.Deciding?
    ensures WorksOff(s, R.ProbeStep(s, luck))
  {
    var s' := R.ProbeStep(s, luck);
    if s'.probe.Sleeping? {
      SleepAgrees(s');
    }
    match s.probe
    case MarkingLost(_) =>
    case ClaimingRestore =>
    case Republishes =>
    case Walking =>
    case Closing =>
  }

  // ---------------------------------------------------------------- each step of a session

  /** An upper bound on the session's steps that have something to do. */
  ghost function SideWork(s: R.State): nat {
    32 * Rank(s) + ProbeWork(s)
  }

  lemma WorkerStepRank(s: R.State, luck: R.Luck, maxAttempts: Option<nat>)
    requires Reachable(s, maxAttempts) && Alive(s) && R.WorkerCan(s, luck) && OwnStep(s, R.Worker(luck))
    ensures var s' := R.WorkerStep(s, luck, maxAttempts); Alive(s') && Rank(s') < Rank(s)
  {
    if s.shared.phase == ManagedSession.IDLE {
      assert R.Tokens(s) == 0;
      IdleWorkerRank(s, luck, maxAttempts);
    } else {
      R.NobodySetsItBack(s, R.Worker(luck), maxAttempts);
      PendingWorkerLives(s, luck, maxAttempts);
    }
  }

  lemma IdleWorkerRank(s: R.State, luck: R.Luck, maxAttempts: Option<nat>)
    requires R.TriggerInv(s) && Alive(s) && s.shared.phase == ManagedSession.IDLE && R.Tokens(s) == 0
    requires R.WorkerCan(s, luck) && OwnStep(s, R.Worker(luck))
    ensures var s' := R.WorkerStep(s, luck, maxAttempts);
      Alive(s') && s'.shared.phase == ManagedSession.IDLE && Rank(s') < Rank(s)
  {
    match s.worker
    case AtLoop =>
    case RestoreWalks =>
    case Noting =>
    case ClaimingLink =>
    case Republishing =>
    case Committing =>
    case Lowering =>
    case Waiting =>
    case _ =>
  }

  lemma PendingWorkerLives(s: R.State, luck: R.Luck, maxAttempts: Option<nat>)
    requires R.TriggerInv(s) && Alive(s) && R.Unanswered(s) && R.WorkerCan(s, luck) && OwnStep(s, R.Worker(luck))
    ensures var s' := R.WorkerStep(s, luck, maxAttempts);
      && Alive(s') && (R.Unanswered(s') || (s'.shared.phase == ManagedSession.IDLE && s'.worker.RestoreWalks?))
      && !R.RefusedAt(s, R.Worker(luck))
  {
    match s.worker
    case AtLoop =>
    case Waiting =>
    case Clearing =>
    case Checking =>
    case Vetting =>
    case Raising =>
    case LosingLink =>
    case Opening(_) =>
    case BackingOff(_) =>
    case Swapping(_, _) =>
    case RestoreWalks =>
    case Noting =>
    case ClaimingLink =>
    case Republishing =>
    case Committing =>
    case Lowering =>
    case _ =>
  }

  lemma ProbeStepRank(s: R.State, luck: R.Luck, maxAttempts: Option<nat>)
    requires Reachable(s, maxAttempts) && Alive(s) && R.ProbeCan(s, luck) && OwnStep(s, R.Probe(luck))
    ensures var s' := R.ProbeStep(s, luck);
      && Alive(s') && Rank(s') <= Rank(s) && s'.shared.phase == s.shared.phase
      && (s.probe.Signalling? ==> Rank(s') < Rank(s))
  {
    if s.shared.phase != ManagedSession.IDLE {
      R.NobodySetsItBack(s, R.Probe(luck), maxAttempts);
    } else {
      assert R.Tokens(s) == 0;
    }
    match s.probe
    case Sleeping =>
    case TestingDead =>
    case TestingReconnecting =>
    case TestingAlive =>
    case Signalling =>
    case TestingFlag =>
    case Polling =>
    case Deciding(_, _) =>
    case MarkingLost(_) =>
    case ClaimingRestore =>
    case Republishes =>
    case Walking =>
    case Closing =>
    case Stopped =>
  }

  lemma ProbeStepWork(s: R.State, luck: R.Luck, maxAttempts: Option<nat>)
    requires Reachable(s, maxAttempts) && Alive(s) && R.ProbeCan(s, luck) && OwnStep(s, R.Probe(luck))
    requires !s.probe.Signalling?
    ensures WorksOff(s, R.ProbeStep(s, luck))
  {
    if s.probe.TestingAlive? || s.probe.TestingFlag? {
      TestWorksOff(s, luck);
    } else if BetweenTicks(s.probe) {
      WakeWorksOff(s, luck);
    } else if s.probe.Polling? {
      PollWorksOff(s, luck);
    } else if s.probe.Deciding? {
      VerdictWorksOff(s, luck);
    } else {
      RestoreWorksOff(s, luck);
    }
  }

  /** A session's own step keeps it alive; one with something to do leaves less, and any other no more. */
  lemma StepWork(s: R.State, step: R.Step, maxAttempts: Option<nat>)
    requires Reachable(s, maxAttempts) && Alive(s) && R.Enabled(s, step) && OwnStep(s, step)
    ensures var s' := R.Apply(s, step, maxAttempts);
      && Alive(s') && (if BusyStep(s, step) then SideWork(s') < SideWork(s) else SideWork(s') <= SideWork(s))
  {
    var s' := R.Apply(s, step, maxAttempts);
    ProbeWorkIsSmall(s');
    match step
    case Worker(luck) => WorkerStepRank(s, luck, maxAttempts);
    case Probe(luck) =>
      ProbeStepRank(s, luck, maxAttempts);
      if !s.probe.Signalling? {
        ProbeStepWork(s, luck, maxAttempts);
      }
    case SetSignal(sender) =>
      assert |s.setting| > 0;
      R.NobodySetsItBack(s, step, maxAttempts);
  }

  // ---------------------------------------------------------------- the system's own steps

  ghost predicate AliveSystem(c: System) {
    && Reachable(c.pub, c.limits.pub) && Reachable(c.sub, c.limits.sub)
    && Alive(c.pub) && Alive(c.sub)
  }

  /** What the threads and messages do of their own accord, with nothing new sent, no link lost and nothing failing. */
  predicate Own(c: System, action: Action)
    requires Composition.Can(c, action)
  {
    match action
    case OfThread(who, step, net, replies, gets) =>
      OwnStep(Peer(c, who), step) && net == c.data.net && replies == c.data.replies && gets == c.gets
    case OfData(step) => step.Deliver? || step.DeliverReply?
    case _ => true
  }

  predicate BusyAction(c: System, action: Action) {
    action.OfThread? ==> BusyStep(Peer(c, action.who), action.step)
  }

  /** What the data still has to do; an answer may bring the whole cache. */
  ghost function Load(c: System): nat {
    DataLoad(c.data) + Schedules.Weigh(|c.data.cache| + 1, c.gets)
  }

  ghost function DataLoad(d: Convergence.State): nat {
    2 * |d.toPut| + |d.replies| + 2 * |d.sending| + |d.net|
  }

  ghost function Steps(c: System): nat {
    SideWork(c.pub) + SideWork(c.sub)
  }

  /** An upper bound on the busy actions left: each busy step of a thread may load the whole cache. */
  ghost function Work(c: System): nat {
    Schedules.Weigh(2 * |c.data.cache| + 2, Steps(c)) + Load(c)
  }

  lemma Weighed(n: nat, w': nat, w: nat, l': nat, l: nat)
    requires w' <= w && l' < l + (if w' < w then n else 1)
    ensures Schedules.Weigh(n, w') + l' <= Schedules.Weigh(n, w) + l
    ensures w' < w || l' < l ==> Schedules.Weigh(n, w') + l' < Schedules.Weigh(n, w) + l
  {
    if w' < w {
      Schedules.Lighter(n, w', w);
    }
  }

  lemma UnionIsFew(a: set<Sample>, b: set<Sample>)
    ensures |a + b| <= |a| + |b|
  {
    assert a + b == a + (b - a);
    assert |a + (b - a)| == |a| + |b - a|;
    assert b == (b - a) + (b * a);
  }

  lemma LoadedLoad(c: System, who: Who, step: R.Step)
    ensures var d := Loaded(c, who, step);
      d.cache == c.data.cache && DataLoad(d) <= DataLoad(c.data)
        + (if who.Publisher? && Pushes(c.pub, step) then 2 * |c.data.cache| else 0)
  {
    Schedules.EntriesAreFew(c.data.cache);
    UnionIsFew(c.data.toPut, Entries(c.data.cache));
  }

  lemma WithLoad(d: Convergence.State, who: Who, session: Session)
    ensures DataLoad(With(d, who, session)) == DataLoad(d) && With(d, who, session).cache == d.cache
  {
  }

  lemma SteppedIs(c: System, who: Who, step: R.Step)
    requires R.Enabled(Peer(c, who), step)
    ensures var c' := Stepped(c, who, step);
      && c'.limits == c.limits && c'.gets == c.gets + Fetches(c, who, step)
      && c'.data == With(Loaded(c, who, step), who, SessionOf(Peer(c', who)))
      && Peer(c', who) == R.Apply(Peer(c, who), step, Limit(c, who))
      && (who.Publisher? ==> c'.sub == c.sub) && (who.Subscriber? ==> c'.pub == c.pub)
  {
  }

  lemma ThreadLoad(c: System, who: Who, step: R.Step)
    requires R.Enabled(Peer(c, who), step)
    ensures var c' := Stepped(c, who, step);
      && c'.data.cache == c.data.cache
      && Load(c') <= Load(c)
           + (if Pushes(Peer(c, who), step) || Pulls(Peer(c, who), step) then 2 * |c.data.cache| + 1 else 0)
  {
    var c' := Stepped(c, who, step);
    SteppedIs(c, who, step);
    LoadedLoad(c, who, step);
    WithLoad(Loaded(c, who, step), who, SessionOf(Peer(c', who)));
  }

  lemma RestoresAreBusy(s: R.State, step: R.Step)
    requires Pushes(s, step) || Pulls(s, step)
    ensures BusyStep(s, step)
  {
  }

  lemma ThreadSteps(c: System, who: Who, step: R.Step)
    requires AliveSystem(c) && R.Enabled(Peer(c, who), step) && OwnStep(Peer(c, who), step)
    ensures var c' := Stepped(c, who, step);
      && AliveSystem(c') && Steps(c') <= Steps(c)
      && (BusyStep(Peer(c, who), step) ==> Steps(c') < Steps(c))
  {
    StepWork(Peer(c, who), step, Limit(c, who));
    StepStaysReachable(Peer(c, who), step, Limit(c, who));
    SteppedIs(c, who, step);
  }

  lemma ThreadWork(c: System, who: Who, step: R.Step)
    requires AliveSystem(c) && R.Enabled(Peer(c, who), step) && OwnStep(Peer(c, who), step)
    ensures var c' := Stepped(c, who, step);
      && c'.data.cache == c.data.cache && Work(c') <= Work(c)
      && (BusyStep(Peer(c, who), step) ==> Work(c') < Work(c))
  {
    var c' := Stepped(c, who, step);
    ThreadSteps(c, who, step);
    ThreadLoad(c, who, step);
    if Pushes(Peer(c, who), step) || Pulls(Peer(c, who), step) {
      RestoresAreBusy(Peer(c, who), step);
    }
    Weighed(2 * |c.data.cache| + 2, Steps(c'), Steps(c), Load(c'), Load(c));
  }

  lemma HeardLoad(d: Convergence.State, x: Sample, heard: bool)
    ensures var d' := Heard(d, x, heard);
      DataLoad(d') <= DataLoad(d) + 1 && d'.cache == d.cache
  {
  }

  lemma DispatchLoad(d: Convergence.State, x: Sample)
    ensures DataLoad(Dispatch(d, x)) == DataLoad(d) && Dispatch(d, x).cache == d.cache
  {
  }

  lemma ReputsLoad(c: System, x: Sample, heard: bool)
    requires x in c.data.toPut
    ensures var d := Heard(c.data.(toPut := c.data.toPut - {x}), x, heard);
      DataLoad(d) < DataLoad(c.data) && d.cache == c.data.cache
  {
    var d := c.data.(toPut := c.data.toPut - {x});
    assert |d.toPut| == |c.data.toPut| - 1;
    HeardLoad(d, x, heard);
  }

  lemma PutsLoad(c: System, k: Key, heard: bool)
    requires k in c.data.sending
    ensures var d := Heard(c.data.(sending := c.data.sending - {k}), c.data.sending[k], heard);
      DataLoad(d) < DataLoad(c.data) && d.cache == c.data.cache
  {
    var d := c.data.(sending := c.data.sending - {k});
    Schedules.MapMinusKey(c.data.sending, k);
    HeardLoad(d, c.data.sending[k], heard);
  }

  lemma AnswersLoad(c: System, heard: bool)
    requires Composition.Can(c, Answers(heard))
    ensures Load(Do(c, Answers(heard))) < Load(c) && Do(c, Answers(heard)).data.cache == c.data.cache
  {
    Schedules.EntriesAreFew(c.data.cache);
    assert |multiset(Entries(c.data.cache))| == |Entries(c.data.cache)|;
  }

  lemma DeliversLoad(d: Convergence.State, step: Convergence.Step)
    requires (step.Deliver? || step.DeliverReply?) && Enabled(d, step)
    ensures DataLoad(Apply(d, step)) < DataLoad(d) && Apply(d, step).cache == d.cache
  {
    match step
    case Deliver(x) =>
      assert |d.net - multiset{x}| == |d.net| - 1;
      DispatchLoad(d.(net := d.net - multiset{x}), x);
    case DeliverReply(x) =>
      assert |d.replies - multiset{x}| == |d.replies| - 1;
      DispatchLoad(d.(replies := d.replies - multiset{x}), x);
  }

  lemma LoadFollows(c: System, d: Convergence.State)
    requires d.cache == c.data.cache && DataLoad(d) < DataLoad(c.data)
    ensures Load(c.(data := d)) < Load(c)
  {
  }

  lemma DataWork(c: System, action: Action)
    requires Composition.Can(c, action) && Own(c, action) && !action.OfThread?
    ensures var c' := Do(c, action);
      c'.data.cache == c.data.cache && Load(c') < Load(c)
  {
    match action
    case Reputs(x, heard) =>
      ReputsLoad(c, x, heard);
      LoadFollows(c, Heard(c.data.(toPut := c.data.toPut - {x}), x, heard));
    case Puts(k, heard) =>
      PutsLoad(c, k, heard);
      LoadFollows(c, Heard(c.data.(sending := c.data.sending - {k}), c.data.sending[k], heard));
    case Answers(heard) => AnswersLoad(c, heard);
    case OfData(step) =>
      DeliversLoad(c.data, step);
      LoadFollows(c, Apply(c.data, step));
  }

  lemma DataLeavesThreads(c: System, action: Action)
    requires Composition.Can(c, action) && !action.OfThread?
    ensures var c' := Do(c, action); c'.pub == c.pub && c'.sub == c.sub && c'.limits == c.limits
  {
  }

  lemma ActionWork(c: System, action: Action)
    requires AliveSystem(c) && Composition.Can(c, action) && Own(c, action)
    ensures var c' := Do(c, action);
      && AliveSystem(c') && c'.data.cache == c.data.cache && Work(c') <= Work(c)
      && (BusyAction(c, action) ==> Work(c') < Work(c))
  {
    if action.OfThread? {
      assert Surviving(c, action.net, action.replies, action.gets) == c;
      ThreadSteps(c, action.who, action.step);
      ThreadWork(c, action.who, action.step);
    } else {
      DataLeavesThreads(c, action);
      DataWork(c, action);
      var c' := Do(c, action);
      Weighed(2 * |c.data.cache| + 2, Steps(c'), Steps(c), Load(c'), Load(c));
    }
  }
}
