/** Link loss and restore between a publisher's session and a deduping subscriber's
    (zeared/_reconnect/_link.py, zeared/retention.py, zeared/subscriber/).

    Each session's probe thread runs its ticks and its restore; the publisher's
    restore republishes its cache entry by entry, the subscriber's asks for the
    cache and dispatches the replies one by one. Sends, link losses, returns,
    deliveries and both restores interleave freely, one step each. Samples in
    flight arrive in any order, and any of them may be lost with a link. */
module Convergence {
  import opened Link

  type Key = string

  datatype Sample = Sample(key: Key, ts: nat, body: string)

  datatype Who = Publisher | Subscriber

  datatype State = State(
    pub: Session,
    sub: Session,
    cache: map<Key, Sample>,     // the publisher's retained values
    newest: map<Key, nat>,       // the last timestamp drawn for each key
    sending: map<Key, Sample>,   // stored, not yet put
    toPut: set<Sample>,          // what the publisher's republish still has to put
    net: multiset<Sample>,       // puts on their way to the subscriber
    query: bool,                 // the subscriber's get, not yet answered
    replies: multiset<Sample>,   // replies not yet dispatched
    seen: map<Key, nat>,         // the subscriber's watermarks
    log: seq<Sample>)            // what it has delivered, in order

  datatype Step =
    | LinkMove(who: Who, move: Move)
    | Detach(who: Who, net: multiset<Sample>, replies: multiset<Sample>, query: bool)  // what survives the loss
    | Snapshot
    | Reput(sample: Sample)
    | Ask
    | Answer
    | Finish(who: Who)
    | Store(sample: Sample)
    | Put(key: Key)
    | Delete(key: Key)
    | Deliver(sample: Sample)
    | DeliverReply(sample: Sample)

  function Of(s: State, who: Who): Session {
    if who.Publisher? then s.pub else s.sub
  }

  function With(s: State, who: Who, session: Session): State {
    if who.Publisher? then s.(pub := session) else s.(sub := session)
  }

  // ---------------------------------------------------------------- steps

  predicate Enabled(s: State, step: Step) {
    match step
    case LinkMove(who, move) =>
      !move.Detaches? && !move.Starts? && !move.Finishes? && Can(Of(s, who), move)
    case Detach(who, net, replies, query) =>
      Can(Of(s, who), Detaches) && net <= s.net && replies <= s.replies && (query ==> s.query)
    case Snapshot => Can(s.pub, Starts)
    case Reput(x) => s.pub.probe.Working? && x in s.toPut
    case Ask => Can(s.sub, Starts)
    case Answer => s.query
    case Finish(who) =>
      && Can(Of(s, who), Finishes)
      && (if who.Publisher? then s.toPut == {} else !s.query && s.replies == multiset{})
    case Store(x) => x.key !in s.sending && (x.key in s.newest ==> s.newest[x.key] < x.ts)
    case Put(k) => k in s.sending
    case Delete(k) => k !in s.sending && k in s.cache
    case Deliver(x) => x in s.net
    case DeliverReply(x) => x in s.replies
  }

  predicate Attached(s: State) {
    s.pub.zids != {} && s.sub.zids != {}
  }

  /** A put reaches the subscriber while both sessions are attached, and nobody otherwise. */
  function Publish(s: State, x: Sample): State {
    if Attached(s) then s.(net := s.net + multiset{x}) else s
  }

  /** The subscriber's dedupe; every timestamp is within the skew ceiling. */
  function Dispatch(s: State, x: Sample): State {
    if x.key in s.seen && x.ts <= s.seen[x.key] then s
    else s.(seen := s.seen[x.key := x.ts], log := s.log + [x])
  }

  function Entries(cache: map<Key, Sample>): set<Sample> {
    set k | k in cache :: cache[k]
  }

  function Apply(s: State, step: Step): State
    requires Enabled(s, step)
  {
    match step
    case LinkMove(who, move) => With(s, who, Moved(Of(s, who), move))
    case Detach(who, net, replies, query) =>
      With(s, who, Moved(Of(s, who), Detaches)).(net := net, replies := replies, query := query)
    case Snapshot => s.(pub := Moved(s.pub, Starts), toPut := Entries(s.cache))
    case Reput(x) => Publish(s.(toPut := s.toPut - {x}), x)
    case Ask => s.(sub := Moved(s.sub, Starts), query := Attached(s))
    case Answer =>
      s.(query := false, replies := if Attached(s) then s.replies + multiset(Entries(s.cache)) else s.replies)
    case Finish(who) => With(s, who, Moved(Of(s, who), Finishes))
    case Store(x) =>
      s.(cache := s.cache[x.key := x], newest := s.newest[x.key := x.ts], sending := s.sending[x.key := x])
    case Put(k) => Publish(s.(sending := s.sending - {k}), s.sending[k])
    case Delete(k) => s.(cache := s.cache - {k})
    case Deliver(x) => Dispatch(s.(net := s.net - multiset{x}), x)
    case DeliverReply(x) => Dispatch(s.(replies := s.replies - multiset{x}), x)
  }

  /** Nothing retained yet, both links up and both probes at rest, attached or not, whatever their baselines. */
  ghost predicate Fresh(s: State) {
    && s.pub == Session(s.pub.zids, s.pub.routers, Up, Idle)
    && s.sub == Session(s.sub.zids, s.sub.routers, Up, Idle)
    && s == State(s.pub, s.sub, map[], map[], map[], {}, multiset{}, false, multiset{}, map[], [])
  }

  /** Both probes have a baseline. */
  ghost predicate Init(s: State) {
    Fresh(s) && s.pub.routers != {} && s.sub.routers != {}
  }

  /** The step hides no loss from the probes. */
  ghost predicate SeenStep(s: State, step: Step) {
    step.LinkMove? ==> Seen(Of(s, step.who), step.move)
  }

  /** `run` is a sequence of states joined by enabled steps. */
  ghost predicate IsRun(run: seq<State>) {
    && run != []
    && forall i :: 0 <= i < |run| - 1 ==> Follows(run[i], run[i+1])
  }

  ghost predicate Follows(s: State, s': State) {
    exists step :: Enabled(s, step) && s' == Apply(s, step)
  }

  /** And by steps that hide no loss. */
  ghost predicate SeenRun(run: seq<State>) {
    && run != []
    && forall i :: 0 <= i < |run| - 1 ==> SeenFollows(run[i], run[i+1])
  }

  ghost predicate SeenFollows(s: State, s': State) {
    exists step :: Enabled(s, step) && SeenStep(s, step) && s' == Apply(s, step)
  }

  // ---------------------------------------------------------------- what is owed

  ghost predicate PubOwes(s: State, x: Sample) {
    Owing(s.pub) || (s.pub.probe.Working? && x in s.toPut)
  }

  ghost predicate SubOwes(s: State) {
    Owing(s.sub) || (s.sub.probe.Working? && s.query)
  }

  ghost predicate Arrived(s: State, x: Sample) {
    x.key in s.seen && x.ts <= s.seen[x.key]
  }

  /** The value has arrived, is on its way, or some restore still has it to bring. */
  ghost predicate Covered(s: State, x: Sample) {
    || Arrived(s, x)
    || (x.key in s.sending && s.sending[x.key] == x)
    || x in s.net
    || x in s.replies
    || PubOwes(s, x)
    || SubOwes(s)
  }

  /** `x` was stored under its timestamp: no other value of its key can carry the same one. */
  ghost predicate Genuine(s: State, x: Sample) {
    && x.key in s.newest && x.ts <= s.newest[x.key]
    && (x.key in s.cache && x.ts == s.newest[x.key] ==> x == s.cache[x.key])
  }

  /** `x` is somewhere between a put and the log. */
  ghost predicate Held(s: State, x: Sample) {
    x in s.toPut || x in s.net || x in s.replies || x in s.log
  }

  ghost predicate Cached(s: State, x: Sample) {
    x.key in s.cache && s.cache[x.key] == x
  }

  ghost predicate CacheOk(s: State) {
    && (forall k :: k in s.cache ==> s.cache[k].key == k && k in s.newest && s.cache[k].ts == s.newest[k])
    && (forall k :: k in s.sending ==> k in s.cache && s.sending[k] == s.cache[k])
  }

  ghost predicate SamplesOk(s: State) {
    forall x :: Held(s, x) ==> Genuine(s, x)
  }

  /** `x` is the last delivery of its key. */
  ghost predicate LastOf(log: seq<Sample>, x: Sample) {
    exists i :: 0 <= i < |log| && log[i] == x && forall j :: i < j < |log| ==> log[j].key != x.key
  }

  /** Deliveries of one key only ever get newer. */
  ghost predicate Newer(log: seq<Sample>) {
    forall i, j :: 0 <= i < j < |log| && log[i].key == log[j].key ==> log[i].ts < log[j].ts
  }

  /** Each watermark is the last delivery's timestamp, and the largest. */
  ghost predicate Watermarked(log: seq<Sample>, seen: map<Key, nat>) {
    && Newer(log)
    && (forall i :: 0 <= i < |log| ==> log[i].key in seen && log[i].ts <= seen[log[i].key])
    && (forall k :: k in seen ==> exists x :: LastOf(log, x) && x.key == k && x.ts == seen[k])
  }

  ghost predicate WatermarksOk(s: State) {
    Watermarked(s.log, s.seen)
  }

  /** A get is pending only while the restore that sent it is under way. */
  predicate QueryOk(s: State) {
    s.query ==> s.sub.probe.Working?
  }

  /** What every run keeps, hidden losses or not. */
  ghost predicate Sound(s: State) {
    && SessionOk(s.pub) && SessionOk(s.sub)
    && QueryOk(s)
    && CacheOk(s) && SamplesOk(s)
    && WatermarksOk(s)
  }

  ghost predicate AllCovered(s: State) {
    forall k :: k in s.cache ==> Covered(s, s.cache[k])
  }

  ghost predicate Inv(s: State) {
    Sound(s) && AllCovered(s)
  }

  // ---------------------------------------------------------------- every step keeps it

  /** The steps of the two sessions themselves. */
  predicate OfSession(step: Step) {
    step.LinkMove? || step.Detach? || step.Snapshot? || step.Ask? || step.Finish?
  }

  function WhoOf(step: Step): Who
    requires OfSession(step)
  {
    match step
    case LinkMove(who, _) => who
    case Detach(who, _, _, _) => who
    case Finish(who) => who
    case Snapshot => Publisher
    case Ask => Subscriber
  }

  function MoveOf(step: Step): Move
    requires OfSession(step)
  {
    match step
    case LinkMove(_, move) => move
    case Detach(_, _, _, _) => Detaches
    case Finish(_) => Finishes
    case Snapshot => Starts
    case Ask => Starts
  }

  lemma SessionMoves(s: State, step: Step, who: Who)
    requires Enabled(s, step)
    ensures OfSession(step) ==> Can(Of(s, WhoOf(step)), MoveOf(step))
    ensures Of(Apply(s, step), who) ==
      if OfSession(step) && WhoOf(step) == who then Moved(Of(s, who), MoveOf(step)) else Of(s, who)
  {
    match step
    case LinkMove(_, _) =>
    case Detach(_, _, _, _) =>
    case Finish(_) =>
    case Snapshot =>
    case Ask =>
    case Reput(x) => assert Apply(s, step) == Publish(s.(toPut := s.toPut - {x}), x);
    case Answer =>
    case Store(_) =>
    case Put(k) => assert Apply(s, step) == Publish(s.(sending := s.sending - {k}), s.sending[k]);
    case Delete(_) =>
    case Deliver(x) => assert Apply(s, step) == Dispatch(s.(net := s.net - multiset{x}), x);
    case DeliverReply(x) => assert Apply(s, step) == Dispatch(s.(replies := s.replies - multiset{x}), x);
  }

  lemma SessionStep(s: State, step: Step, who: Who)
    requires SessionOk(Of(s, who)) && Enabled(s, step)
    ensures SessionOk(Of(Apply(s, step), who))
    ensures
      (SeenStep(s, step) && Owing(Of(s, who)) && !(OfSession(step) && WhoOf(step) == who && MoveOf(step).Starts?)) ==>
      Owing(Of(Apply(s, step), who))
  {
    SessionMoves(s, step, who);
    if OfSession(step) && WhoOf(step) == who {
      MoveKeepsOwing(Of(s, who), MoveOf(step));
    }
  }

  lemma SessionsStep(s: State, step: Step)
    requires SessionOk(s.pub) && SessionOk(s.sub) && Enabled(s, step)
    ensures SessionOk(Apply(s, step).pub) && SessionOk(Apply(s, step).sub)
    ensures SeenStep(s, step) && Owing(s.pub) && !step.Snapshot? ==> Owing(Apply(s, step).pub)
    ensures SeenStep(s, step) && Owing(s.sub) && !step.Ask? ==> Owing(Apply(s, step).sub)
  {
    SessionStep(s, step, Publisher);
    SessionStep(s, step, Subscriber);
    if step.LinkMove? {
      assert !step.move.Starts?;
    }
  }

  lemma SessionStepKeepsData(s: State, step: Step)
    requires OfSession(step) && Enabled(s, step)
    ensures var s' := Apply(s, step);
      && s'.cache == s.cache && s'.newest == s.newest && s'.sending == s.sending
      && s'.log == s.log && s'.seen == s.seen
  {
    match step
    case LinkMove(who, move) => assert Apply(s, step) == With(s, who, Moved(Of(s, who), move));
    case Detach(who, net, replies, query) =>
      assert Apply(s, step) ==
        With(s, who, Moved(Of(s, who), Detaches)).(net := net, replies := replies, query := query);
    case Finish(who) => assert Apply(s, step) == With(s, who, Moved(Of(s, who), Finishes));
    case Snapshot =>
    case Ask =>
  }

  lemma CacheUntouched(s: State, step: Step)
    requires step.Reput? || step.Answer? || step.Deliver? || step.DeliverReply?
    requires Enabled(s, step)
    ensures var s' := Apply(s, step); s'.cache == s.cache && s'.newest == s.newest && s'.sending == s.sending
  {
    match step
    case Reput(x) => assert Apply(s, step) == Publish(s.(toPut := s.toPut - {x}), x);
    case Answer =>
    case Deliver(x) => assert Apply(s, step) == Dispatch(s.(net := s.net - multiset{x}), x);
    case DeliverReply(x) => assert Apply(s, step) == Dispatch(s.(replies := s.replies - multiset{x}), x);
  }

  lemma CacheStep(s: State, step: Step)
    requires CacheOk(s) && Enabled(s, step)
    ensures CacheOk(Apply(s, step))
  {
    if OfSession(step) {
      SessionStepKeepsData(s, step);
    } else if !step.Store? && !step.Put? && !step.Delete? {
      CacheUntouched(s, step);
    }
  }

  /** Only stored values ever enter the republish, the network, the replies or the log. */
  lemma HeldStep(s: State, step: Step, x: Sample)
    requires CacheOk(s) && Enabled(s, step) && Held(Apply(s, step), x)
    ensures Held(s, x) || Cached(s, x)
  {
    if step.Snapshot? || step.Answer? || step.Put? {
      HeldByCopy(s, step, x);
    } else if step.Reput? || step.Deliver? || step.DeliverReply? {
      HeldByMove(s, step, x);
    } else {
      HeldUntouched(s, step, x);
    }
  }

  lemma HeldByCopy(s: State, step: Step, x: Sample)
    requires step.Snapshot? || step.Answer? || step.Put?
    requires CacheOk(s) && Enabled(s, step) && Held(Apply(s, step), x)
    ensures Held(s, x) || Cached(s, x)
  {
  }

  lemma HeldByMove(s: State, step: Step, x: Sample)
    requires step.Reput? || step.Deliver? || step.DeliverReply?
    requires Enabled(s, step) && Held(Apply(s, step), x)
    ensures Held(s, x)
  {
    match step
    case Reput(y) => HeldByPublish(s.(toPut := s.toPut - {y}), y, x);
    case Deliver(y) => HeldByDispatch(s.(net := s.net - multiset{y}), y, x);
    case DeliverReply(y) => HeldByDispatch(s.(replies := s.replies - multiset{y}), y, x);
  }

  lemma HeldByPublish(s: State, y: Sample, x: Sample)
    requires Held(Publish(s, y), x)
    ensures Held(s, x) || x == y
  {
  }

  lemma HeldByDispatch(s: State, y: Sample, x: Sample)
    requires Held(Dispatch(s, y), x)
    ensures Held(s, x) || x == y
  {
  }

  lemma HeldUntouched(s: State, step: Step, x: Sample)
    requires step.LinkMove? || step.Detach? || step.Ask? || step.Finish? || step.Store? || step.Delete?
    requires Enabled(s, step) && Held(Apply(s, step), x)
    ensures Held(s, x)
  {
  }

  lemma SamplesStep(s: State, step: Step)
    requires CacheOk(s) && SamplesOk(s) && Enabled(s, step)
    ensures SamplesOk(Apply(s, step))
  {
    var s' := Apply(s, step);
    forall x | Held(s', x) ensures Genuine(s', x) {
      HeldStep(s, step, x);
      assert Genuine(s, x);
    }
  }

  lemma ArrivedStays(s: State, step: Step, x: Sample)
    requires Enabled(s, step) && Arrived(s, x)
    ensures Arrived(Apply(s, step), x)
  {
    if OfSession(step) {
      SessionStepKeepsData(s, step);
    } else if step.Deliver? {
      DispatchKeepsArrived(s.(net := s.net - multiset{step.sample}), step.sample, x);
    } else if step.DeliverReply? {
      DispatchKeepsArrived(s.(replies := s.replies - multiset{step.sample}), step.sample, x);
    } else {
      NothingDelivered(s, step);
    }
  }

  lemma DispatchKeepsArrived(s: State, y: Sample, x: Sample)
    requires Arrived(s, x)
    ensures Arrived(Dispatch(s, y), x)
  {
  }

  /** A put either reaches the network or falls into a gap some session still owes for. */
  lemma PublishCovers(s: State, x: Sample)
    requires SessionOk(s.pub) && SessionOk(s.sub)
    ensures x in Publish(s, x).net || Owing(s.pub) || Owing(s.sub)
  {
  }

  /** A sample on its way stays so until it is dispatched, or a link is lost under it. */
  lemma UnderwayStep(s: State, step: Step, x: Sample)
    requires SessionOk(s.pub) && SessionOk(s.sub) && Enabled(s, step) && SeenStep(s, step)
    requires x in s.net || x in s.replies
    ensures Covered(Apply(s, step), x)
  {
    if step.Detach? {
      LossOwes(s, step);
    } else if step.Deliver? || step.DeliverReply? {
      DispatchedOrLeft(s, step, x);
    } else {
      NothingDropped(s, step);
    }
  }

  lemma LossOwes(s: State, step: Step)
    requires SessionOk(s.pub) && SessionOk(s.sub) && Enabled(s, step) && SeenStep(s, step) && step.Detach?
    ensures Owing(Apply(s, step).pub) || Owing(Apply(s, step).sub)
  {
    SessionsStep(s, step);
    assert Unsettled(Of(Apply(s, step), step.who));
  }

  lemma DispatchedOrLeft(s: State, step: Step, x: Sample)
    requires Enabled(s, step) && (step.Deliver? || step.DeliverReply?)
    requires x in s.net || x in s.replies
    ensures var s' := Apply(s, step); Arrived(s', x) || x in s'.net || x in s'.replies
  {
    assert step.sample == x ==> Arrived(Apply(s, step), x);
  }

  lemma NothingDropped(s: State, step: Step)
    requires Enabled(s, step) && !step.Detach? && !step.Deliver? && !step.DeliverReply?
    ensures s.net <= Apply(s, step).net && s.replies <= Apply(s, step).replies
  {
    match step
    case LinkMove(who, move) => assert Apply(s, step) == With(s, who, Moved(Of(s, who), move));
    case Finish(who) => assert Apply(s, step) == With(s, who, Moved(Of(s, who), Finishes));
    case Snapshot =>
    case Ask =>
    case Reput(_) =>
    case Answer =>
    case Store(_) =>
    case Put(_) =>
    case Delete(_) =>
  }

  lemma OwedBySession(s: State, step: Step, x: Sample)
    requires SessionOk(s.pub) && SessionOk(s.sub) && Enabled(s, step) && SeenStep(s, step) && Cached(s, x)
    requires OfSession(step) && (PubOwes(s, x) || SubOwes(s))
    ensures Covered(Apply(s, step), x)
  {
    SessionsStep(s, step);
    match step
    case LinkMove(who, move) => MoveKeepsOwing(Of(s, who), move);
    case Detach(_, _, _, _) => LossOwes(s, step);
    case Finish(_) =>
    case Snapshot => assert x in Entries(s.cache);
    case Ask =>
  }

  lemma OwedByData(s: State, step: Step, x: Sample)
    requires SessionOk(s.pub) && SessionOk(s.sub) && Enabled(s, step) && Cached(s, x)
    requires !OfSession(step) && (PubOwes(s, x) || SubOwes(s))
    ensures Covered(Apply(s, step), x)
  {
    match step
    case Reput(y) => PublishCovers(s.(toPut := s.toPut - {y}), x);
    case Answer => assert x in Entries(s.cache);
    case Store(_) =>
    case Put(_) =>
    case Delete(_) =>
    case Deliver(_) =>
    case DeliverReply(_) =>
  }

  /** A restore that has `x` to bring keeps it until it is put, or asked for. */
  lemma OwedStep(s: State, step: Step, x: Sample)
    requires SessionOk(s.pub) && SessionOk(s.sub) && Enabled(s, step) && SeenStep(s, step) && Cached(s, x)
    requires PubOwes(s, x) || SubOwes(s)
    ensures Covered(Apply(s, step), x)
  {
    if OfSession(step) {
      OwedBySession(s, step, x);
    } else {
      OwedByData(s, step, x);
    }
  }

  lemma CoveredStep(s: State, step: Step, x: Sample)
    requires SessionOk(s.pub) && SessionOk(s.sub) && Enabled(s, step) && SeenStep(s, step)
    requires Cached(s, x) && Covered(s, x)
    requires step.Store? ==> step.sample.key != x.key
    ensures Covered(Apply(s, step), x)
  {
    if Arrived(s, x) {
      ArrivedStays(s, step, x);
    } else if x in s.net || x in s.replies {
      UnderwayStep(s, step, x);
    } else if PubOwes(s, x) || SubOwes(s) {
      OwedStep(s, step, x);
    } else if step == Put(x.key) {
      PublishCovers(s.(sending := s.sending - {x.key}), x);
    }
  }

  lemma AllCoveredStep(s: State, step: Step)
    requires Inv(s) && Enabled(s, step) && SeenStep(s, step)
    ensures AllCovered(Apply(s, step))
  {
    var s' := Apply(s, step);
    forall k | k in s'.cache ensures Covered(s', s'.cache[k]) {
      if step.Store? && step.sample.key == k {
      } else {
        assert k in s.cache && s.cache[k] == s'.cache[k];
        CoveredStep(s, step, s.cache[k]);
      }
    }
  }

  // ---------------------------------------------------------------- the delivery log

  lemma LastOfSnoc(log: seq<Sample>, x: Sample, y: Sample)
    requires LastOf(log, x) && y.key != x.key
    ensures LastOf(log + [y], x)
  {
    var i :| 0 <= i < |log| && log[i] == x && forall j :: i < j < |log| ==> log[j].key != x.key;
    assert (log + [y])[i] == x;
  }

  lemma DeliveryKeepsWatermarks(log: seq<Sample>, seen: map<Key, nat>, x: Sample)
    requires Watermarked(log, seen) && (x.key in seen ==> seen[x.key] < x.ts)
    ensures Watermarked(log + [x], seen[x.key := x.ts])
  {
    var log', seen' := log + [x], seen[x.key := x.ts];
    assert log'[|log|] == x;
    assert LastOf(log', x);
    forall k | k in seen' ensures exists y :: LastOf(log', y) && y.key == k && y.ts == seen'[k] {
      if k != x.key {
        var y :| LastOf(log, y) && y.key == k && y.ts == seen[k];
        LastOfSnoc(log, y, x);
      }
    }
  }

  lemma DispatchKeepsWatermarks(s: State, x: Sample)
    requires WatermarksOk(s)
    ensures WatermarksOk(Dispatch(s, x)) && Arrived(Dispatch(s, x), x)
  {
    if !Arrived(s, x) {
      DeliveryKeepsWatermarks(s.log, s.seen, x);
    }
  }

  lemma NothingDelivered(s: State, step: Step)
    requires step.Reput? || step.Answer? || step.Store? || step.Put? || step.Delete?
    requires Enabled(s, step)
    ensures Apply(s, step).log == s.log && Apply(s, step).seen == s.seen
  {
    match step
    case Reput(x) => assert Apply(s, step) == Publish(s.(toPut := s.toPut - {x}), x);
    case Put(k) => assert Apply(s, step) == Publish(s.(sending := s.sending - {k}), s.sending[k]);
    case Answer =>
    case Store(x) =>
    case Delete(k) =>
  }

  lemma WatermarksStep(s: State, step: Step)
    requires WatermarksOk(s) && Enabled(s, step)
    ensures WatermarksOk(Apply(s, step))
  {
    if step.Deliver? {
      DispatchKeepsWatermarks(s.(net := s.net - multiset{step.sample}), step.sample);
    } else if step.DeliverReply? {
      DispatchKeepsWatermarks(s.(replies := s.replies - multiset{step.sample}), step.sample);
    } else if OfSession(step) {
      SessionStepKeepsData(s, step);
    } else {
      NothingDelivered(s, step);
    }
  }

  lemma QueryStep(s: State, step: Step)
    requires QueryOk(s) && Enabled(s, step)
    ensures QueryOk(Apply(s, step))
  {
    SessionMoves(s, step, Subscriber);
    match step
    case LinkMove(_, _) =>
    case Detach(_, _, _, _) =>
    case Finish(_) =>
    case Ask =>
    case Answer =>
    case Reput(_) =>
    case Put(_) =>
    case Deliver(_) =>
    case DeliverReply(_) =>
    case _ =>
  }

  lemma StepKeepsSound(s: State, step: Step)
    requires Sound(s) && Enabled(s, step)
    ensures Sound(Apply(s, step))
  {
    SessionsStep(s, step);
    QueryStep(s, step);
    CacheStep(s, step);
    SamplesStep(s, step);
    WatermarksStep(s, step);
  }

  lemma StepKeepsInv(s: State, step: Step)
    requires Inv(s) && Enabled(s, step) && SeenStep(s, step)
    ensures Inv(Apply(s, step))
  {
    StepKeepsSound(s, step);
    AllCoveredStep(s, step);
  }

  lemma {:induction false} RunKeepsInv(run: seq<State>)
    requires SeenRun(run) && Inv(run[0])
    ensures forall i :: 0 <= i < |run| ==> Inv(run[i])
  {
    if |run| > 1 {
      var n := |run| - 1;
      RunKeepsInv(run[..n]);
      assert SeenFollows(run[n-1], run[n]);
      var step :| Enabled(run[n-1], step) && SeenStep(run[n-1], step) && run[n] == Apply(run[n-1], step);
      assert run[..n][n-1] == run[n-1];
      StepKeepsInv(run[n-1], step);
      forall i | 0 <= i < |run| ensures Inv(run[i]) {
        if i < n { assert run[..n][i] == run[i]; }
      }
    }
  }

  // ---------------------------------------------------------------- the theorems

  /** Both links are up, nothing is left to restore, and no put is still on its way. */
  ghost predicate Settled(s: State) {
    Attached(s) && Whole(s.pub) && Whole(s.sub) && s.sending == map[] && s.net == multiset{} && s.replies == multiset{}
  }

  /** Whichever side re-attached first: what the publisher still caches is what the subscriber last delivered. */
  lemma RestoreConverges(run: seq<State>, k: Key)
    requires SeenRun(run) && Init(run[0])
    requires Settled(run[|run|-1]) && k in run[|run|-1].cache
    ensures LastOf(run[|run|-1].log, run[|run|-1].cache[k])
  {
    RunKeepsInv(run);
    SettledDelivers(run[|run|-1], k);
  }

  lemma SettledDelivers(s: State, k: Key)
    requires Inv(s) && Settled(s) && k in s.cache
    ensures LastOf(s.log, s.cache[k])
  {
    var x := s.cache[k];
    WholeIsAttached(s.pub);
    WholeIsAttached(s.sub);
    assert Covered(s, x) && Arrived(s, x);
    var y :| LastOf(s.log, y) && y.key == k && y.ts == s.seen[k];
    assert y in s.log;
    assert Genuine(s, y);
  }

  lemma {:induction false} LogOnlyGrows(run: seq<State>, i: nat, j: nat)
    requires IsRun(run) && i <= j < |run|
    ensures run[i].log <= run[j].log
    decreases j - i
  {
    if i < j {
      var m := j - 1;
      LogOnlyGrows(run, i, m);
      assert Follows(run[m], run[m+1]);
      FollowsGrows(run[i].log, run[m], run[j]);
    }
  }

  lemma FollowsGrows(log: seq<Sample>, s: State, s': State)
    requires Follows(s, s') && log <= s.log
    ensures log <= s'.log
  {
    var step :| Enabled(s, step) && s' == Apply(s, step);
    StepKeepsLog(s, step);
  }

  lemma StepKeepsLog(s: State, step: Step)
    requires Enabled(s, step)
    ensures s.log <= Apply(s, step).log
  {
    match step
    case Deliver(x) =>
    case DeliverReply(x) =>
    case _ => assert Apply(s, step).log == s.log;
  }

  lemma {:induction false} RunKeepsWatermarks(run: seq<State>)
    requires IsRun(run) && WatermarksOk(run[0])
    ensures forall i :: 0 <= i < |run| ==> WatermarksOk(run[i])
  {
    if |run| > 1 {
      var n := |run| - 1;
      RunKeepsWatermarks(run[..n]);
      assert Follows(run[n-1], run[n]);
      var step :| Enabled(run[n-1], step) && run[n] == Apply(run[n-1], step);
      assert run[..n][n-1] == run[n-1];
      WatermarksStep(run[n-1], step);
      forall i | 0 <= i < |run| ensures WatermarksOk(run[i]) {
        if i < n { assert run[..n][i] == run[i]; }
      }
    }
  }

  /** No key ever goes back, hidden losses or not: what is delivered stays delivered, and each key's deliveries get
      strictly newer. */
  lemma DeliveriesOnlyGetNewer(run: seq<State>, i: nat, j: nat)
    requires IsRun(run) && Fresh(run[0]) && i <= j < |run|
    ensures run[i].log <= run[j].log && Newer(run[j].log)
  {
    RunKeepsWatermarks(run);
    LogOnlyGrows(run, i, j);
  }

  // ---------------------------------------------------------------- deleted values

  /** No value of the key is cached, or on its way to the subscriber in any form. */
  ghost predicate Gone(s: State, k: Key) {
    k !in s.cache && k !in s.sending && forall x :: x in s.toPut || x in s.net || x in s.replies ==> x.key != k
  }

  /** The new deliveries, if any, are of other keys. */
  ghost predicate OthersDelivered(log: seq<Sample>, log': seq<Sample>, k: Key) {
    log <= log' && forall i :: |log| <= i < |log'| ==> log'[i].key != k
  }

  lemma GoneByDelivery(s: State, x: Sample, k: Key)
    requires Gone(s, k) && x.key != k
    ensures Gone(Dispatch(s, x), k) && OthersDelivered(s.log, Dispatch(s, x).log, k)
  {
  }

  lemma GoneBySession(s: State, step: Step, k: Key)
    requires Gone(s, k) && CacheOk(s) && Enabled(s, step) && OfSession(step)
    ensures Gone(Apply(s, step), k)
  {
    SessionStepKeepsData(s, step);
    match step
    case LinkMove(who, move) => assert Apply(s, step) == With(s, who, Moved(Of(s, who), move));
    case Detach(_, _, _, _) =>
    case Finish(who) => assert Apply(s, step) == With(s, who, Moved(Of(s, who), Finishes));
    case Snapshot =>
    case Ask =>
  }

  lemma GoneByPublish(s: State, x: Sample, k: Key)
    requires Gone(s, k) && x.key != k
    ensures Gone(Publish(s, x), k)
  {
  }

  lemma GoneByData(s: State, step: Step, k: Key)
    requires Gone(s, k) && CacheOk(s) && Enabled(s, step) && !(step.Store? && step.sample.key == k)
    requires step.Reput? || step.Answer? || step.Store? || step.Put? || step.Delete?
    ensures Gone(Apply(s, step), k)
  {
    match step
    case Reput(x) => GoneByPublish(s.(toPut := s.toPut - {x}), x, k);
    case Put(j) => GoneByPublish(s.(sending := s.sending - {j}), s.sending[j], k);
    case Answer =>
    case Store(_) =>
    case Delete(_) =>
  }

  lemma GoneStep(s: State, step: Step, k: Key)
    requires Gone(s, k) && CacheOk(s) && Enabled(s, step) && !(step.Store? && step.sample.key == k)
    ensures Gone(Apply(s, step), k) && OthersDelivered(s.log, Apply(s, step).log, k)
  {
    if step.Deliver? {
      GoneByDelivery(s.(net := s.net - multiset{step.sample}), step.sample, k);
    } else if step.DeliverReply? {
      GoneByDelivery(s.(replies := s.replies - multiset{step.sample}), step.sample, k);
    } else if OfSession(step) {
      SessionStepKeepsData(s, step);
      GoneBySession(s, step, k);
    } else {
      NothingDelivered(s, step);
      GoneByData(s, step, k);
    }
  }

  /** `run` goes from state to state by steps that store no value of the key. */
  ghost predicate RunWithout(run: seq<State>, k: Key) {
    && run != []
    && forall i :: 0 <= i < |run| - 1 ==> FollowsWithout(run[i], run[i+1], k)
  }

  ghost predicate FollowsWithout(s: State, s': State, k: Key) {
    exists step :: Enabled(s, step) && s' == Apply(s, step) && !(step.Store? && step.sample.key == k)
  }

  lemma {:induction false} StaysGone(run: seq<State>, k: Key)
    requires RunWithout(run, k) && CacheOk(run[0]) && Gone(run[0], k)
    ensures var s := run[|run|-1]; CacheOk(s) && Gone(s, k) && OthersDelivered(run[0].log, s.log, k)
  {
    if |run| > 1 {
      var n := |run| - 1;
      StaysGone(run[..n], k);
      assert FollowsWithout(run[n-1], run[n], k);
      var step :| Enabled(run[n-1], step) && run[n] == Apply(run[n-1], step) && !(step.Store? && step.sample.key == k);
      CacheStep(run[n-1], step);
      GoneStep(run[n-1], step, k);
    }
  }

  /** A deleted value with none of its key on the way comes back by no restore: until the key is stored again, whatever
      else happens, nothing more of it is delivered. */
  lemma DeletedStaysDeleted(s: State, run: seq<State>, k: Key)
    requires CacheOk(s) && Enabled(s, Delete(k))
    requires forall x :: x in s.toPut || x in s.net || x in s.replies ==> x.key != k
    requires RunWithout(run, k) && run[0] == Apply(s, Delete(k))
    ensures OthersDelivered(s.log, run[|run|-1].log, k)
  {
    CacheStep(s, Delete(k));
    StaysGone(run, k);
  }
}
