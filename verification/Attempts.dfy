/** When the reconnect worker gives up: at the last open its bound allows, and at no other
    (zeared/_reconnect/_restore.py, zeared/_reconnect/_reconnect.py). */
module Attempts {
  import opened ManagedSession
  import opened Reconnect
  import opened Wrappers

  ghost function After(s: State, steps: seq<Step>, maxAttempts: Option<nat>): State
    requires StaysUnanswered(s, steps, maxAttempts)
    decreases |steps|
  {
    if steps == [] then s else After(Apply(s, steps[0], maxAttempts), steps[1..], maxAttempts)
  }

  /** The worker is reopening, and `refused` opens have been refused so far. */
  predicate AtTry(w: WorkerAt, refused: nat, maxAttempts: Option<nat>) {
    match w
    case LosingLink => refused == 0
    case Opening(n) => n == refused && (maxAttempts.Some? ==> refused < Allowed(maxAttempts.value))
    case BackingOff(n) => n == refused && (maxAttempts.Some? ==> refused < Allowed(maxAttempts.value))
    case Swapping(_, _) => maxAttempts.Some? ==> refused < Allowed(maxAttempts.value)
    case GivingUp => maxAttempts.Some? && refused == Allowed(maxAttempts.value)
    case _ => false
  }

  lemma WorkerTries(s: State, luck: Luck, refused: nat, maxAttempts: Option<nat>)
    requires Unanswered(s) && AtTry(s.worker, refused, maxAttempts) && WorkerCan(s, luck)
    ensures var s' := WorkerStep(s, luck, maxAttempts);
      Unanswered(s') ==> AtTry(s'.worker, refused + One(RefusedAt(s, Worker(luck))), maxAttempts)
  {
  }

  lemma {:induction false} ScheduleTries(s: State, steps: seq<Step>, refused: nat, maxAttempts: Option<nat>)
    requires AtTry(s.worker, refused, maxAttempts) && StaysUnanswered(s, steps, maxAttempts)
    ensures AtTry(After(s, steps, maxAttempts).worker, refused + Refusals(s, steps, maxAttempts), maxAttempts)
    decreases |steps|
  {
    if steps != [] {
      var s' := Apply(s, steps[0], maxAttempts);
      assert StaysUnanswered(s', steps[1..], maxAttempts) && Unanswered(s');
      if steps[0].Worker? {
        WorkerTries(s, steps[0].luck, refused, maxAttempts);
        ScheduleTries(s', steps[1..], refused + One(RefusedAt(s, steps[0])), maxAttempts);
      } else {
        OthersLeaveTheWorker(s, steps[0], maxAttempts);
        ScheduleTries(s', steps[1..], refused, maxAttempts);
      }
    }
  }

  lemma {:induction false} StillUnanswered(s: State, steps: seq<Step>, maxAttempts: Option<nat>)
    requires StaysUnanswered(s, steps, maxAttempts)
    ensures Unanswered(After(s, steps, maxAttempts))
    decreases |steps|
  {
    if steps != [] {
      StillUnanswered(Apply(s, steps[0], maxAttempts), steps[1..], maxAttempts);
    }
  }

  /** With a bound on the attempts, from a session about to open, whatever the schedule: no more opens are refused than
      the bound allows; the worker's next step makes the session DEAD exactly when that many have been; and the one
      after stops the probe. */
  lemma GivesUpExactly(s: State, steps: seq<Step>, m: nat, luck: Luck, next: Luck)
    requires s.worker.LosingLink? && StaysUnanswered(s, steps, Some(m))
    requires WorkerCan(After(s, steps, Some(m)), luck)
    ensures var most := if m >= 1 then m else 1;
      var refused := Refusals(s, steps, Some(m));
      var s1 := WorkerStep(After(s, steps, Some(m)), luck, Some(m));
      && refused <= most
      && (s1.shared.phase == DEAD <==> refused == most)
      && (refused == most ==>
            WorkerCan(s1, next)
            && var s2 := WorkerStep(s1, next, Some(m)); s2.shared.phase == DEAD && s2.shared.cancel)
  {
    ScheduleTries(s, steps, 0, Some(m));
    StillUnanswered(s, steps, Some(m));
  }

  /** Without one it never does. */
  lemma NeverGivesUp(s: State, steps: seq<Step>, luck: Luck)
    requires s.worker.LosingLink? && StaysUnanswered(s, steps, None)
    requires WorkerCan(After(s, steps, None), luck)
    ensures WorkerStep(After(s, steps, None), luck, None).shared.phase != DEAD
  {
    ScheduleTries(s, steps, 0, None);
    StillUnanswered(s, steps, None);
  }
}
