/** Convergence with the reconnect workers in it: a publisher's and a subscriber's session, each with its probe, its
    worker and its triggers, and the retained values between them
    (zeared/_reconnect/_reconnect.py, zeared/_reconnect/_restore.py, zeared/retention.py, zeared/subscriber/). */
module Composition {
  import opened Convergence
  import opened FetchTracking
  import opened Handlers
  import opened Link
  import opened LossTracking
  import opened Wrappers
  import ManagedSession
  import R = Reconnect

  /** `data` holds both sessions as link detection sees them, beside the values between them. */
  datatype System = System(
    pub: R.State,
    sub: R.State,
    limits: Limits,
    gets: nat,                   // retained fetches not yet answered
    data: Convergence.State)

  /** Each session's bound on its reconnect attempts. */
  datatype Limits = Limits(pub: Option<nat>, sub: Option<nat>)

  datatype Action =
    | OfThread(who: Who, step: R.Step, net: multiset<Sample>, replies: multiset<Sample>, gets: nat)
    | Reputs(sample: Sample, heard: bool)
    | Puts(key: Key, heard: bool)
    | Answers(heard: bool)
    | OfData(dataStep: Convergence.Step)

  // ---------------------------------------------------------------- actions

  function Peer(c: System, who: Who): R.State {
    if who.Publisher? then c.pub else c.sub
  }

  function Limit(c: System, who: Who): Option<nat> {
    if who.Publisher? then c.limits.pub else c.limits.sub
  }

  /** The step takes the session off its routers, or swaps it for another. */
  predicate Breaks(s: R.State, step: R.Step) {
    step.Detach? || (step.Worker? && s.worker.Swapping?)
  }

  /** The step begins a republish. */
  predicate Pushes(s: R.State, step: R.Step) {
    (step.Worker? && s.worker.Republishing?) || (step.Probe? && s.probe.Republishes?)
  }

  /** The step sends a retained fetch. */
  predicate Pulls(s: R.State, step: R.Step) {
    || (step.Worker? && s.worker.RestoreWalks? && !step.luck.Raised?)
    || (step.Probe? && s.probe.Walking? && !s.shared.cancel)
  }

  predicate Can(c: System, action: Action) {
    match action
    case OfThread(who, step, net, replies, gets) =>
      && R.Enabled(Peer(c, who), step)
      && (if Breaks(Peer(c, who), step) then net <= c.data.net && replies <= c.data.replies && gets <= c.gets
          else net == c.data.net && replies == c.data.replies && gets == c.gets)
    case Reputs(x, heard) => x in c.data.toPut && Hears(c, heard)
    case Puts(k, heard) => k in c.data.sending && Hears(c, heard)
    case Answers(heard) => c.gets > 0 && Hears(c, heard)
    case OfData(step) => (step.Store? || step.Delete? || step.Deliver? || step.DeliverReply?) && Enabled(c.data, step)
  }

  /** Operations go through: no reconnect is pending, and the walks of the last one are over. Until then they may be
      refused, or go to publishers, queryables and subscribers of the old session. */
  predicate Ready(s: R.State) {
    s.shared.phase == ManagedSession.IDLE && !s.worker.RestoreWalks?
  }

  /** What passes between the two is heard while both are attached and ready, and may be while they are attached. */
  predicate Hears(c: System, heard: bool) {
    (heard ==> Attached(c.data)) && (Attached(c.data) && Ready(c.pub) && Ready(c.sub) ==> heard)
  }

  function Loaded(c: System, who: Who, step: R.Step): Convergence.State {
    if who.Publisher? && Pushes(c.pub, step) then c.data.(toPut := c.data.toPut + Entries(c.data.cache)) else c.data
  }

  function Heard(d: Convergence.State, x: Sample, heard: bool): Convergence.State {
    if heard then d.(net := d.net + multiset{x}) else d
  }

  function Fetches(c: System, who: Who, step: R.Step): nat {
    if who.Subscriber? && Pulls(c.sub, step) && Attached(c.data) then 1 else 0
  }

  function Stepped(c: System, who: Who, step: R.Step): System
    requires R.Enabled(Peer(c, who), step)
  {
    var s := R.Apply(Peer(c, who), step, Limit(c, who));
    var data := With(Loaded(c, who, step), who, SessionOf(s));
    if who.Publisher? then c.(pub := s, data := data)
    else c.(sub := s, data := data, gets := c.gets + Fetches(c, who, step))
  }

  /** What is in flight may be lost with a session's link. */
  function Surviving(c: System, net: multiset<Sample>, replies: multiset<Sample>, gets: nat): System {
    c.(data := c.data.(net := net, replies := replies), gets := gets)
  }

  function Do(c: System, action: Action): System
    requires Can(c, action)
  {
    match action
    case OfThread(who, step, net, replies, gets) => Stepped(Surviving(c, net, replies, gets), who, step)
    case Reputs(x, heard) => c.(data := Heard(c.data.(toPut := c.data.toPut - {x}), x, heard))
    case Puts(k, heard) => c.(data := Heard(c.data.(sending := c.data.sending - {k}), c.data.sending[k], heard))
    case Answers(heard) =>
      c.(gets := c.gets - 1,
         data := if heard then c.data.(replies := c.data.replies + multiset(Entries(c.data.cache))) else c.data)
    case OfData(step) => c.(data := Apply(c.data, step))
  }

  ghost predicate Init(c: System) {
    && R.Init(c.pub) && R.Init(c.sub) && c.gets == 0
    && Fresh(c.data) && c.data.pub == SessionOf(c.pub) && c.data.sub == SessionOf(c.sub)
  }

  // ---------------------------------------------------------------- what is owed covers what is missing

  /** Neither session has a reconnect to answer. */
  predicate BothIdle(c: System) {
    c.pub.shared.phase == ManagedSession.IDLE && c.sub.shared.phase == ManagedSession.IDLE
  }

  /** A put or a get goes unheard during a session's walks, and no restore to come is owed for it. */
  predicate LosesUnheard(c: System, action: Action) {
    && (action.Reputs? || action.Puts? || action.Answers?) && !action.heard
    && Attached(c.data) && BothIdle(c) && !c.pub.owed.push && !c.sub.owed.pull
  }

  ghost predicate Covers(c: System, x: Sample) {
    || Arrived(c.data, x)
    || (x.key in c.data.sending && c.data.sending[x.key] == x)
    || x in c.data.net || x in c.data.replies || x in c.data.toPut
    || c.gets > 0 || c.pub.owed.push || c.sub.owed.pull || !BothIdle(c)
  }

  ghost predicate DataOk(d: Convergence.State) {
    CacheOk(d) && SamplesOk(d) && WatermarksOk(d)
  }

  ghost predicate CoverInv(c: System) {
    && c.data.pub == SessionOf(c.pub) && c.data.sub == SessionOf(c.sub)
    && DebtInv(c.pub) && DebtInv(c.sub)
    && DataOk(c.data)
    && forall k :: k in c.data.cache ==> Covers(c, c.data.cache[k])
  }

  lemma DetachedOwes(c: System)
    requires CoverInv(c) && !Attached(c.data)
    ensures c.pub.owed.push || c.sub.owed.pull
  {
  }

  /** What a thread's step does to the debts. */
  lemma DebtsStep(s: R.State, step: R.Step, maxAttempts: Option<nat>)
    requires R.Enabled(s, step)
    ensures var s' := R.Apply(s, step, maxAttempts);
      && (Breaks(s, step) ==> s'.owed == R.Debt(true, true))
      && (s.shared.phase != ManagedSession.IDLE && s'.shared.phase == ManagedSession.IDLE ==> Breaks(s, step))
      && (s.owed.push && !s'.owed.push ==> Pushes(s, step))
      && (s.owed.pull && !s'.owed.pull ==> Pulls(s, step))
  {
    match step
    case Worker(_) =>
    case Probe(_) =>
    case _ =>
  }

  lemma ThreadKeepsDataOk(
      c: System, who: Who, step: R.Step, net: multiset<Sample>, replies: multiset<Sample>, gets: nat)
    requires CoverInv(c) && Can(c, OfThread(who, step, net, replies, gets))
    ensures DataOk(Do(c, OfThread(who, step, net, replies, gets)).data)
  {
    var d, d' := c.data, Do(c, OfThread(who, step, net, replies, gets)).data;
    assert d'.cache == d.cache && d'.newest == d.newest && d'.sending == d.sending;
    assert d'.log == d.log && d'.seen == d.seen;
    forall x | Held(d', x) ensures Genuine(d', x) {
      assert Held(d, x) || x in Entries(d.cache);
      assert Genuine(d, x);
    }
  }

  lemma ThreadKeepsCover(
      c: System, who: Who, step: R.Step, net: multiset<Sample>, replies: multiset<Sample>, gets: nat, x: Sample)
    requires CoverInv(c) && Can(c, OfThread(who, step, net, replies, gets))
    requires Cached(c.data, x) && Covers(c, x)
    ensures Covers(Do(c, OfThread(who, step, net, replies, gets)), x)
  {
    DebtsStep(Peer(c, who), step, Limit(c, who));
    assert x in Entries(c.data.cache);
    if !Attached(c.data) {
      DetachedOwes(c);
    }
  }

  lemma ThreadKeepsCoverInv(
      c: System, who: Who, step: R.Step, net: multiset<Sample>, replies: multiset<Sample>, gets: nat)
    requires CoverInv(c) && Can(c, OfThread(who, step, net, replies, gets))
    ensures CoverInv(Do(c, OfThread(who, step, net, replies, gets)))
  {
    var c' := Do(c, OfThread(who, step, net, replies, gets));
    ThreadKeepsDataOk(c, who, step, net, replies, gets);
    StepKeepsDebtInv(Peer(c, who), step, Limit(c, who));
    forall k | k in c'.data.cache ensures Covers(c', c'.data.cache[k]) {
      assert c'.data.cache == c.data.cache;
      ThreadKeepsCover(c, who, step, net, replies, gets, c.data.cache[k]);
    }
  }

  // ---------------------------------------------------------------- the data's own steps keep it

  lemma HeardKeepsDataOk(d: Convergence.State, x: Sample, heard: bool)
    requires DataOk(d) && Genuine(d, x)
    ensures DataOk(Heard(d, x, heard))
  {
    var d' := Heard(d, x, heard);
    forall y | Held(d', y) ensures Genuine(d', y) {
      assert Held(d, y) || y == x;
      assert Genuine(d, y);
    }
  }

  /** What goes unheard is still owed. */
  lemma UnheardIsOwed(c: System, action: Action)
    requires CoverInv(c) && Can(c, action) && !LosesUnheard(c, action)
    requires action.Reputs? || action.Puts? || action.Answers?
    ensures action.heard || c.pub.owed.push || c.sub.owed.pull || !BothIdle(c)
  {
    if !Attached(c.data) {
      DetachedOwes(c);
    }
  }

  lemma ReputsKeepsCoverInv(c: System, x: Sample, heard: bool)
    requires CoverInv(c) && Can(c, Reputs(x, heard)) && !LosesUnheard(c, Reputs(x, heard))
    ensures CoverInv(Do(c, Reputs(x, heard)))
  {
    var c' := Do(c, Reputs(x, heard));
    var d := c.data.(toPut := c.data.toPut - {x});
    assert Held(c.data, x) && Genuine(c.data, x);
    assert forall y :: Held(d, y) ==> Held(c.data, y) && (Genuine(d, y) <==> Genuine(c.data, y));
    HeardKeepsDataOk(d, x, heard);
    UnheardIsOwed(c, Reputs(x, heard));
    forall k | k in c'.data.cache ensures Covers(c', c'.data.cache[k]) {
      assert Covers(c, c.data.cache[k]);
    }
  }

  lemma PutsKeepsCoverInv(c: System, k: Key, heard: bool)
    requires CoverInv(c) && Can(c, Puts(k, heard)) && !LosesUnheard(c, Puts(k, heard))
    ensures CoverInv(Do(c, Puts(k, heard)))
  {
    var c' := Do(c, Puts(k, heard));
    var d := c.data.(sending := c.data.sending - {k});
    assert forall y :: Held(d, y) ==> Held(c.data, y) && (Genuine(d, y) <==> Genuine(c.data, y));
    HeardKeepsDataOk(d, c.data.sending[k], heard);
    UnheardIsOwed(c, Puts(k, heard));
    forall j | j in c'.data.cache ensures Covers(c', c'.data.cache[j]) {
      assert Covers(c, c.data.cache[j]);
    }
  }

  lemma AnswersKeepsCoverInv(c: System, heard: bool)
    requires CoverInv(c) && Can(c, Answers(heard)) && !LosesUnheard(c, Answers(heard))
    ensures CoverInv(Do(c, Answers(heard)))
  {
    var c' := Do(c, Answers(heard));
    forall x | Held(c'.data, x) ensures Genuine(c'.data, x) {
      assert Held(c.data, x) || x in Entries(c.data.cache);
      assert Genuine(c.data, x);
    }
    UnheardIsOwed(c, Answers(heard));
    forall k | k in c'.data.cache ensures Covers(c', c'.data.cache[k]) {
      assert Covers(c, c.data.cache[k]) && c.data.cache[k] in Entries(c.data.cache);
    }
  }

  lemma DataStepCovers(c: System, step: Convergence.Step, x: Sample)
    requires CoverInv(c) && Can(c, OfData(step)) && Cached(c.data, x) && Covers(c, x)
    requires step.Store? ==> step.sample.key != x.key
    ensures Covers(Do(c, OfData(step)), x)
  {
    if Arrived(c.data, x) {
      ArrivedStays(c.data, step, x);
    } else if step.Deliver? || step.DeliverReply? {
      if x in c.data.net || x in c.data.replies {
        DispatchedOrLeft(c.data, step, x);
      }
    } else {
      NothingDropped(c.data, step);
    }
  }

  lemma DataKeepsCoverInv(c: System, step: Convergence.Step)
    requires CoverInv(c) && Can(c, OfData(step))
    ensures CoverInv(Do(c, OfData(step)))
  {
    var c' := Do(c, OfData(step));
    CacheStep(c.data, step);
    SamplesStep(c.data, step);
    WatermarksStep(c.data, step);
    SessionMoves(c.data, step, Publisher);
    SessionMoves(c.data, step, Subscriber);
    forall k | k in c'.data.cache ensures Covers(c', c'.data.cache[k]) {
      if step.Store? && step.sample.key == k {
      } else {
        assert c.data.cache[k] == c'.data.cache[k];
        DataStepCovers(c, step, c.data.cache[k]);
      }
    }
  }

  lemma ActionKeepsCoverInv(c: System, action: Action)
    requires CoverInv(c) && Can(c, action) && !LosesUnheard(c, action)
    ensures CoverInv(Do(c, action))
  {
    match action
    case OfThread(who, step, net, replies, gets) => ThreadKeepsCoverInv(c, who, step, net, replies, gets);
    case Reputs(x, heard) => ReputsKeepsCoverInv(c, x, heard);
    case Puts(k, heard) => PutsKeepsCoverInv(c, k, heard);
    case Answers(heard) => AnswersKeepsCoverInv(c, heard);
    case OfData(step) => DataKeepsCoverInv(c, step);
  }

  // ---------------------------------------------------------------- runs

  /** The action drops a value for good: a republish or a fetch that nothing keeps track of, or what goes unheard. */
  predicate Drops(c: System, action: Action)
    requires Can(c, action)
  {
    || LosesUnheard(c, action)
    || (action.OfThread? && action.who.Publisher? && DropsPush(c.pub, action.step, c.limits.pub))
    || (action.OfThread? && action.who.Subscriber? && DropsPull(c.sub, action.step, c.limits.sub))
  }

  ghost predicate Follows(c: System, c': System) {
    exists action :: Can(c, action) && !LosesUnheard(c, action) && c' == Do(c, action)
  }

  ghost predicate IsRun(run: seq<System>) {
    run != [] && forall i :: 0 <= i < |run| - 1 ==> Follows(run[i], run[i+1])
  }

  ghost predicate Tracks(c: System, c': System) {
    exists action :: Can(c, action) && !Drops(c, action) && c' == Do(c, action)
  }

  ghost predicate IsTrackedRun(run: seq<System>) {
    run != [] && forall i :: 0 <= i < |run| - 1 ==> Tracks(run[i], run[i+1])
  }

  /** Nothing is on its way: no put, reply or get, and no republish to go on with. */
  ghost predicate Drained(c: System) {
    && c.data.sending == map[] && c.data.toPut == {} && c.data.net == multiset{} && c.data.replies == multiset{}
    && c.gets == 0
  }

  ghost predicate Delivered(c: System) {
    forall k :: k in c.data.cache ==> LastOf(c.data.log, c.data.cache[k])
  }

  lemma CoveredIsDelivered(c: System)
    requires CoverInv(c) && Drained(c) && BothIdle(c) && !c.pub.owed.push && !c.sub.owed.pull
    ensures Delivered(c)
  {
    forall k | k in c.data.cache ensures LastOf(c.data.log, c.data.cache[k]) {
      var x := c.data.cache[k];
      assert Covers(c, x) && Arrived(c.data, x);
      var y :| LastOf(c.data.log, y) && y.key == k && y.ts == c.data.seen[k];
      assert y in c.data.log && Held(c.data, y) && Genuine(c.data, y);
    }
  }

  lemma InitCovers(c: System)
    requires Init(c)
    ensures CoverInv(c)
  {
  }

  lemma FollowsKeepsCoverInv(c: System, c': System)
    requires CoverInv(c) && Follows(c, c')
    ensures CoverInv(c')
  {
    var action :| Can(c, action) && !LosesUnheard(c, action) && c' == Do(c, action);
    ActionKeepsCoverInv(c, action);
  }

  lemma ShorterRun(run: seq<System>)
    requires IsRun(run) && |run| > 1
    ensures IsRun(run[..|run|-1]) && Follows(run[|run|-2], run[|run|-1])
  {
    var m := |run| - 2;
    assert Follows(run[m], run[m+1]);
  }

  lemma {:induction false} RunKeepsCoverInv(run: seq<System>)
    requires IsRun(run) && CoverInv(run[0])
    ensures CoverInv(run[|run|-1])
  {
    if |run| > 1 {
      var m := |run| - 2;
      ShorterRun(run);
      RunKeepsCoverInv(run[..m+1]);
      assert run[..m+1][m] == run[m];
      FollowsKeepsCoverInv(run[m], run[m+1]);
    }
  }

  /** Reconnects, losses, republishes, fetches and sends in any order: once both are idle and nothing is on its way,
      everything cached is what was last delivered, unless the publisher still owes a republish or the subscriber a
      fetch. */
  lemma DebtsAreAllThatIsMissing(run: seq<System>)
    requires IsRun(run) && Init(run[0]) && Drained(run[|run|-1]) && BothIdle(run[|run|-1])
    requires !run[|run|-1].pub.owed.push && !run[|run|-1].sub.owed.pull
    ensures Delivered(run[|run|-1])
  {
    InitCovers(run[0]);
    RunKeepsCoverInv(run);
    CoveredIsDelivered(run[|run|-1]);
  }

  // ---------------------------------------------------------------- tracked runs

  /** What only an early probe does: pay a debt during the walks, or claim the link before the worker. */
  predicate EarlyInv(s: R.State) {
    && (s.worker.RestoreWalks? && s.owed != R.Debt(true, true) ==> s.past.early)
    && (BetweenClaims(s.worker) && s.shared.link != Lost ==> s.past.early)
  }

  lemma StepKeepsEarlyInv(s: R.State, step: R.Step, maxAttempts: Option<nat>)
    requires R.LinkInv(s) && EarlyInv(s) && R.Enabled(s, step)
    ensures EarlyInv(R.Apply(s, step, maxAttempts))
  {
    match step
    case Worker(_) =>
    case Probe(_) =>
    case _ =>
  }

  ghost predicate TrackInv(c: System) {
    && Reachable(c.pub, c.limits.pub) && Reachable(c.sub, c.limits.sub)
    && DebtInv(c.pub) && DebtInv(c.sub)
    && (c.pub.owed.push ==> Tracked(c.pub))
    && (c.sub.owed.pull ==> FetchTracked(c.sub))
    && EarlyInv(c.pub) && EarlyInv(c.sub)
  }

  lemma ThreadKeepsTrackInv(c: System, action: Action)
    requires TrackInv(c) && action.OfThread? && Can(c, action) && !Drops(c, action)
    ensures TrackInv(Do(c, action))
  {
    var who, step := action.who, action.step;
    StepStaysReachable(Peer(c, who), step, Limit(c, who));
    StepKeepsDebtInv(Peer(c, who), step, Limit(c, who));
    StepKeepsEarlyInv(Peer(c, who), step, Limit(c, who));
    var s' := R.Apply(Peer(c, who), step, Limit(c, who));
    if who.Publisher? {
      if s'.owed.push {
        TrackIsLostExactly(c.pub, step, c.limits.pub);
      }
    } else if s'.owed.pull {
      FetchIsLostExactly(c.sub, step, c.limits.sub);
    }
  }

  lemma InitTracks(c: System)
    requires Init(c)
    ensures TrackInv(c)
  {
    assert R.IsRun([c.pub], c.limits.pub) && R.IsRun([c.sub], c.limits.sub);
    RunIsReachable([c.pub], c.limits.pub);
    RunIsReachable([c.sub], c.limits.sub);
  }

  lemma TracksKeepsTrackInv(c: System, c': System)
    requires TrackInv(c) && Tracks(c, c')
    ensures TrackInv(c') && Follows(c, c')
  {
    var action :| Can(c, action) && !Drops(c, action) && c' == Do(c, action);
    if action.OfThread? {
      ThreadKeepsTrackInv(c, action);
    } else {
      assert c'.pub == c.pub && c'.sub == c.sub && c'.limits == c.limits;
    }
  }

  ghost predicate SystemInv(c: System) {
    TrackInv(c) && CoverInv(c)
  }

  lemma TracksKeepsSystemInv(c: System, c': System)
    requires SystemInv(c) && Tracks(c, c')
    ensures SystemInv(c')
  {
    TracksKeepsTrackInv(c, c');
    FollowsKeepsCoverInv(c, c');
  }

  lemma ShorterTrackedRun(run: seq<System>)
    requires IsTrackedRun(run) && |run| > 1
    ensures IsTrackedRun(run[..|run|-1]) && Tracks(run[|run|-2], run[|run|-1])
  {
    var m := |run| - 2;
    assert Tracks(run[m], run[m+1]);
  }

  lemma {:induction false} RunKeepsSystemInv(run: seq<System>)
    requires IsTrackedRun(run) && SystemInv(run[0])
    ensures SystemInv(run[|run|-1])
  {
    if |run| > 1 {
      var m := |run| - 2;
      ShorterTrackedRun(run);
      RunKeepsSystemInv(run[..m+1]);
      assert run[..m+1][m] == run[m];
      TracksKeepsSystemInv(run[m], run[m+1]);
    }
  }

  /** A session at rest: no reconnect asked for or under way, the link up, the probe asleep, and no loss for its next
      tick. */
  ghost predicate AtRest(s: R.State) {
    && s.shared.phase == ManagedSession.IDLE && AtEase(s.worker) && s.probe.Sleeping?
    && s.shared.link == Up && !Gap(s.shared.routers, s.zids)
  }

  /** Convergence with both reconnect workers in it: in every run that drops nothing, once both sessions are at rest and
      nothing is on its way, everything the publisher still caches is what the subscriber last delivered. */
  lemma ReconnectsConverge(run: seq<System>)
    requires IsTrackedRun(run) && Init(run[0])
    requires Drained(run[|run|-1]) && AtRest(run[|run|-1].pub) && AtRest(run[|run|-1].sub)
    ensures Delivered(run[|run|-1])
  {
    InitCovers(run[0]);
    InitTracks(run[0]);
    RunKeepsSystemInv(run);
    CoveredIsDelivered(run[|run|-1]);
  }

  /** What such a run cannot lose unheard, it can lose only to an early probe: one that had passed its test of the
      restoring flag before the flag went up. */
  lemma UnheardNeedsAnEarlyProbe(run: seq<System>, action: Action)
    requires IsTrackedRun(run) && Init(run[0])
    requires Can(run[|run|-1], action) && LosesUnheard(run[|run|-1], action)
    ensures var c := run[|run|-1];
      (c.pub.worker.RestoreWalks? && c.pub.past.early) || (c.sub.worker.RestoreWalks? && c.sub.past.early)
  {
    InitCovers(run[0]);
    InitTracks(run[0]);
    RunKeepsSystemInv(run);
  }
}
