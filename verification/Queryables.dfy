/** A retention cache's queryables: lazy declaration by concurrent stores against the reconnect's
    redeclaration (zeared/retention.py, `_ensure_queryables` and `_redeclare_queryables`). */
module Queryables {
  import opened Wrappers

  /** A declared queryable: its template's index, and the raw session it was declared on. */
  datatype Handle = Handle(template: nat, raw: nat)

  /** One handle for each template from the first on. */
  ghost predicate InOrder(handles: seq<Handle>) {
    forall i :: 0 <= i < |handles| ==> handles[i].template == i
  }

  ghost predicate AllOn(handles: seq<Handle>, raw: nat) {
    forall i :: 0 <= i < |handles| ==> handles[i].raw == raw
  }

  // ---------------------------------------------------------------- one thread at a time

  class Declarations {
    var handles: seq<Handle>
    var redeclaring: bool
    const templates: nat

    ghost predicate Valid()
      reads this
    {
      InOrder(handles) && (|handles| == 0 || |handles| == templates)
    }

    constructor (templates: nat)
      ensures Valid() && handles == [] && !redeclaring && this.templates == templates
    {
      handles, redeclaring := [], false;
      this.templates := templates;
    }

    /** The declaring loop of both paths; a failure at `failAt` rolls back what it declared. */
    method DeclareAll(raw: nat, failAt: Option<nat>) returns (raised: bool)
      requires handles == []
      modifies this`handles
      ensures raised <==> failAt.Some? && failAt.value < templates
      ensures Valid() && AllOn(handles, raw) && |handles| == if raised then 0 else templates
    {
      raised := false;
      var t := 0;
      while t < templates
        invariant 0 <= t <= templates && |handles| == t
        invariant InOrder(handles) && AllOn(handles, raw)
        invariant failAt.Some? ==> t <= failAt.value
      {
        if failAt == Some(t) {
          handles := [];
          return true;
        }
        handles := handles + [Handle(t, raw)];
        t := t + 1;
      }
    }

    method EnsureQueryables(raw: nat, failAt: Option<nat>) returns (raised: bool)
      requires Valid()
      modifies this`handles
      ensures Valid()
      ensures old(handles) != [] || redeclaring ==> handles == old(handles) && !raised
      ensures old(handles) == [] && !redeclaring ==>
                && AllOn(handles, raw) && (raised <==> failAt.Some? && failAt.value < templates)
                && |handles| == if raised then 0 else templates
    {
      if handles != [] || redeclaring {
        return false;
      }
      raised := DeclareAll(raw, failAt);
    }

    method RedeclareQueryables(raw: nat, failAt: Option<nat>) returns (raised: bool)
      requires Valid() && !redeclaring
      modifies this
      ensures Valid() && !redeclaring
      ensures old(handles) == [] ==> handles == [] && !raised
      ensures old(handles) != [] ==> AllOn(handles, raw) && |handles| == if raised then 0 else templates
    {
      if handles == [] {
        return false;
      }
      handles := [];
      redeclaring := true;
      raised := DeclareAll(raw, failAt);
      redeclaring := false;
    }
  }

  // ---------------------------------------------------------------- interleaved

  type Thread = nat

  datatype Owner = Storing(thread: Thread) | Worker

  datatype WorkerAt =
    | Resting
    | Taking                          // swapped the raw session; about to take the old handles
    | Undeclaring(was: seq<Handle>)
    | Relocking
    | Redeclaring
    | LoweringFlag

  datatype State = State(
    raw: nat,
    handles: seq<Handle>,
    redeclaring: bool,
    lock: Option<Owner>,
    next: nat,                // the lock holder's loop index over the templates
    waiting: set<Thread>,     // stores that saw no queryable and want the lock
    worker: WorkerAt,
    live: multiset<Handle>)   // declared and not undeclared

  datatype Step =
    | Peek(thread: Thread)
    | Enter(thread: Thread)
    | Declare
    | DeclareFails
    | Leave
    | Swap
    | Take
    | Undeclare
    | Relock
    | LowerFlag
    | Drop

  predicate Enabled(s: State, step: Step, templates: nat) {
    match step
    case Peek(t) => t !in s.waiting && s.lock != Some(Storing(t))
    case Enter(t) => t in s.waiting && s.lock == None
    case Declare => s.lock.Some? && s.next < templates
    case DeclareFails => s.lock.Some? && s.next < templates
    case Leave => s.lock.Some? && s.next == templates
    case Swap => s.worker.Resting?
    case Take => s.worker.Taking? && s.lock == None
    case Undeclare => s.worker.Undeclaring?
    case Relock => s.worker.Relocking? && s.lock == None
    case LowerFlag => s.worker.LoweringFlag? && s.lock == None
    case Drop => s.lock == None
  }

  /** The declaring thread lets the lock go. */
  function Unlocked(s: State): State {
    s.(lock := None, worker := if s.lock == Some(Worker) then LoweringFlag else s.worker)
  }

  function Apply(s: State, step: Step, templates: nat): State
    requires Enabled(s, step, templates)
  {
    match step
    case Peek(t) => if s.handles == [] then s.(waiting := s.waiting + {t}) else s
    case Enter(t) =>
      var s1 := s.(waiting := s.waiting - {t});
      if s.handles != [] || s.redeclaring then s1 else s1.(lock := Some(Storing(t)), next := 0)
    case Declare =>
      var h := Handle(s.next, s.raw);
      s.(handles := s.handles + [h], live := s.live + multiset{h}, next := s.next + 1)
    case DeclareFails => Unlocked(s.(handles := [], live := s.live - multiset(s.handles)))
    case Leave => Unlocked(s)
    case Swap => s.(raw := s.raw + 1, worker := Taking)
    case Take =>
      if s.handles == [] then s.(worker := Resting)
      else s.(handles := [], redeclaring := true, worker := Undeclaring(s.handles))
    case Undeclare => s.(live := s.live - multiset(s.worker.was), worker := Relocking)
    case Relock => s.(lock := Some(Worker), next := 0, worker := Redeclaring)
    case LowerFlag => s.(redeclaring := false, worker := Resting)
    case Drop => s.(handles := [], live := s.live - multiset(s.handles))
  }

  ghost predicate Init(s: State) {
    s == State(s.raw, [], false, None, s.next, {}, Resting, multiset{})
  }

  ghost predicate Follows(s: State, s': State, templates: nat) {
    exists step :: Enabled(s, step, templates) && s' == Apply(s, step, templates)
  }

  ghost predicate IsRun(run: seq<State>, templates: nat) {
    && run != []
    && forall i :: 0 <= i < |run| - 1 ==> Follows(run[i], run[i+1], templates)
  }

  /** Handles taken from the cache and not yet undeclared: those of the raw session that died. */
  function Old(s: State): seq<Handle> {
    if s.worker.Undeclaring? then s.worker.was else []
  }

  ghost predicate LockInv(s: State, templates: nat) {
    && InOrder(s.handles) && |s.handles| <= templates
    && (if s.lock == None then |s.handles| == 0 || |s.handles| == templates else |s.handles| == s.next)
    && (s.redeclaring <==> !s.worker.Resting? && !s.worker.Taking?)
    && (s.lock == Some(Worker) <==> s.worker.Redeclaring?)
    && (s.worker.Undeclaring? || s.worker.Relocking? ==> s.handles == [])
    && (s.redeclaring ==> s.lock == None || s.lock == Some(Worker))
    && (!s.worker.Taking? ==> AllOn(s.handles, s.raw))
  }

  /** Every handle is declared once and undeclared once. */
  ghost predicate LiveInv(s: State) {
    s.live == multiset(s.handles) + multiset(Old(s))
  }

  ghost predicate Inv(s: State, templates: nat) {
    LockInv(s, templates) && LiveInv(s)
  }

  lemma LockStep(s: State, step: Step, templates: nat)
    requires LockInv(s, templates) && Enabled(s, step, templates)
    ensures LockInv(Apply(s, step, templates), templates)
  {
  }

  lemma Declared(handles: seq<Handle>, h: Handle)
    ensures multiset(handles + [h]) == multiset(handles) + multiset{h}
  {
  }

  lemma LiveStep(s: State, step: Step, templates: nat)
    requires LockInv(s, templates) && LiveInv(s) && Enabled(s, step, templates)
    ensures LiveInv(Apply(s, step, templates))
  {
    if step.Declare? {
      Declared(s.handles, Handle(s.next, s.raw));
    }
  }

  lemma StepKeepsInv(s: State, step: Step, templates: nat)
    requires Inv(s, templates) && Enabled(s, step, templates)
    ensures Inv(Apply(s, step, templates), templates)
  {
    LockStep(s, step, templates);
    LiveStep(s, step, templates);
  }

  lemma {:induction false} RunKeepsInv(run: seq<State>, templates: nat)
    requires IsRun(run, templates) && Init(run[0])
    ensures Inv(run[|run|-1], templates)
  {
    if |run| > 1 {
      var m := |run| - 2;
      RunKeepsInv(run[..m+1], templates);
      assert run[..m+1][m] == run[m];
      assert Follows(run[m], run[m+1], templates);
      var step :| Enabled(run[m], step, templates) && run[m+1] == Apply(run[m], step, templates);
      StepKeepsInv(run[m], step, templates);
    }
  }

  /** Outside the critical sections: no queryable, or exactly one per template, and nothing else of this
      cache is declared but the dead handles on their way out; never two sets at once. */
  lemma NoneOrOnePerTemplate(run: seq<State>, templates: nat)
    requires IsRun(run, templates) && Init(run[0]) && run[|run|-1].lock == None
    ensures var s := run[|run|-1];
      && (s.handles == [] || (|s.handles| == templates && InOrder(s.handles)))
      && s.live == multiset(s.handles) + multiset(Old(s))
      && (Old(s) != [] ==> s.handles == [])
  {
    RunKeepsInv(run, templates);
  }

  /** However a redeclaration ended, its flag is down, and whatever is declared is on the current raw session. */
  lemma RedeclareEndsClean(run: seq<State>, templates: nat)
    requires IsRun(run, templates) && Init(run[0]) && run[|run|-1].worker.Resting?
    ensures var s := run[|run|-1];
      && !s.redeclaring && AllOn(s.handles, s.raw)
      && s.live == multiset(s.handles)
  {
    RunKeepsInv(run, templates);
  }
}
