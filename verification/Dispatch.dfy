/** Concurrent tool execution: start hooks, a semaphore, one task per call, and a join,
    as a state machine over every possible schedule. */
module Dispatch {
  import opened Transcript

  /** `Stored` is a task that has written its outcome and still holds its slot. */
  datatype Task = Waiting | Running | Stored | Done

  datatype Phase = Hooks(fired: nat) | Dispatching(next: nat) | Returned(ok: bool)

  datatype State<R> = State(phase: Phase, tasks: seq<Task>, outcomes: seq<Option<R>>, slots: nat)

  /** What happens outside: whether each start hook succeeds and what each call yields. */
  datatype Calls<!R> = Calls(n: nat, hookOk: nat -> bool, result: nat -> R, maxConcurrent: nat)

  datatype Move = FireHook | FinishHooks | Acquire | Store(i: nat) | Release(i: nat) | Join

  function Init<R>(c: Calls<R>): State<R> {
    State(Hooks(0), seq(c.n, _ => Waiting), seq(c.n, _ => None), 0)
  }

  predicate Enabled<R>(c: Calls<R>, s: State<R>, step: Move)
    requires |s.tasks| == |s.outcomes| == c.n
  {
    match step
    case FireHook => s.phase.Hooks? && s.phase.fired < c.n
    case FinishHooks => s.phase.Hooks? && s.phase.fired == c.n
    case Acquire => s.phase.Dispatching? && s.phase.next < c.n && s.slots < c.maxConcurrent
    case Store(i) => i < c.n && s.tasks[i].Running?
    case Release(i) => i < c.n && s.tasks[i].Stored? && s.slots > 0
    case Join => s.phase.Dispatching? && s.phase.next == c.n && forall i :: 0 <= i < c.n ==> s.tasks[i].Done?
  }

  /** A failing hook returns at once; there is nothing to wait for. Taking a slot and starting the goroutine are one
      step. */
  function Apply<R>(c: Calls<R>, s: State<R>, step: Move): State<R>
    requires |s.tasks| == |s.outcomes| == c.n && Enabled(c, s, step)
  {
    match step
    case FireHook => s.(phase := if c.hookOk(s.phase.fired) then Hooks(s.phase.fired + 1) else Returned(false))
    case FinishHooks => s.(phase := Dispatching(0))
    case Acquire =>
      s.(phase := Dispatching(s.phase.next + 1), tasks := s.tasks[s.phase.next := Running], slots := s.slots + 1)
    case Store(i) => s.(tasks := s.tasks[i := Stored], outcomes := s.outcomes[i := Some(c.result(i))])
    case Release(i) => s.(tasks := s.tasks[i := Done], slots := s.slots - 1)
    case Join => s.(phase := Returned(true))
  }

  /** Tasks holding a slot. */
  function InFlight(tasks: seq<Task>): nat {
    if tasks == [] then 0
    else InFlight(tasks[..|tasks| - 1]) + if tasks[|tasks| - 1].Running? || tasks[|tasks| - 1].Stored? then 1 else 0
  }

  ghost predicate Invariant<R>(c: Calls<R>, s: State<R>) {
    && |s.tasks| == |s.outcomes| == c.n
    && s.slots == InFlight(s.tasks) && s.slots <= c.maxConcurrent
    && (forall i :: 0 <= i < c.n ==>
          s.outcomes[i] == if s.tasks[i].Stored? || s.tasks[i].Done? then Some(c.result(i)) else None)
    && match s.phase
       case Hooks(k) =>
         && k <= c.n && (forall i :: 0 <= i < k ==> c.hookOk(i))
         && forall i :: 0 <= i < c.n ==> s.tasks[i].Waiting?
       case Dispatching(k) =>
         && k <= c.n && (forall i :: 0 <= i < c.n ==> c.hookOk(i))
         && forall i :: 0 <= i < c.n ==> (s.tasks[i].Waiting? <==> i >= k)
       case Returned(ok) =>
         if ok then (forall i :: 0 <= i < c.n ==> c.hookOk(i)) && forall i :: 0 <= i < c.n ==> s.tasks[i].Done?
         else (exists i :: 0 <= i < c.n && !c.hookOk(i)) && forall i :: 0 <= i < c.n ==> s.tasks[i].Waiting?
  }

  lemma {:induction false} InFlightUpdate(tasks: seq<Task>, i: nat, t: Task)
    requires i < |tasks|
    ensures InFlight(tasks[i := t]) == InFlight(tasks) - (if tasks[i].Running? || tasks[i].Stored? then 1 else 0)
                                                      + (if t.Running? || t.Stored? then 1 else 0)
    decreases |tasks|
  {
    var n := |tasks| - 1;
    if i < n {
      assert tasks[i := t][..n] == tasks[..n][i := t];
      InFlightUpdate(tasks[..n], i, t);
    } else {
      assert tasks[i := t][..n] == tasks[..n];
    }
  }

  lemma {:induction false} InitInvariant<R>(c: Calls<R>)
    ensures Invariant(c, Init(c))
  {
    NoneInFlight(Init(c).tasks);
  }

  lemma {:induction false} NoneInFlight(tasks: seq<Task>)
    requires forall i :: 0 <= i < |tasks| ==> !tasks[i].Running? && !tasks[i].Stored?
    ensures InFlight(tasks) == 0
    decreases |tasks|
  {
    if tasks != [] { NoneInFlight(tasks[..|tasks| - 1]); }
  }

  lemma {:induction false} SomeInFlight(tasks: seq<Task>) returns (i: nat)
    requires InFlight(tasks) > 0
    ensures i < |tasks| && (tasks[i].Running? || tasks[i].Stored?)
    decreases |tasks|
  {
    var n := |tasks| - 1;
    if tasks[n].Running? || tasks[n].Stored? {
      i := n;
    } else {
      i := SomeInFlight(tasks[..n]);
    }
  }

  lemma {:induction false} StepKeepsInvariant<R>(c: Calls<R>, s: State<R>, step: Move)
    requires Invariant(c, s) && Enabled(c, s, step)
    ensures Invariant(c, Apply(c, s, step))
  {
    match step {
      case Acquire => InFlightUpdate(s.tasks, s.phase.next, Running);
      case Store(i) => InFlightUpdate(s.tasks, i, Stored);
      case Release(i) => InFlightUpdate(s.tasks, i, Done);
      case _ =>
    }
  }

  // ----- every schedule -----

  /** A schedule: the sequence of steps actually taken. */
  ghost predicate Executes<R>(c: Calls<R>, steps: seq<Move>, states: seq<State<R>>) {
    && |states| == |steps| + 1 && states[0] == Init(c)
    && forall k :: 0 <= k < |steps| ==>
        && |states[k].tasks| == |states[k].outcomes| == c.n
        && Enabled(c, states[k], steps[k]) && states[k + 1] == Apply(c, states[k], steps[k])
  }

  lemma {:induction false} AlwaysInvariant<R>(c: Calls<R>, steps: seq<Move>, states: seq<State<R>>, k: nat)
    requires Executes(c, steps, states) && k <= |steps|
    ensures Invariant(c, states[k])
    decreases k
  {
    if k == 0 {
      InitInvariant(c);
    } else {
      AlwaysInvariant(c, steps, states, k - 1);
      StepKeepsInvariant(c, states[k - 1], steps[k - 1]);
    }
  }

  /** At every moment of every schedule: at most maxConcurrent tasks are in flight; while hooks are still
      firing no task has started; and a task that has started means that every hook succeeded. */
  lemma {:induction false} BoundedConcurrency<R>(c: Calls<R>, steps: seq<Move>, states: seq<State<R>>, k: nat)
    requires Executes(c, steps, states) && k <= |steps|
    ensures InFlight(states[k].tasks) <= c.maxConcurrent
    ensures states[k].phase.Hooks? ==> forall i :: 0 <= i < |states[k].tasks| ==> states[k].tasks[i].Waiting?
    ensures (exists i :: 0 <= i < |states[k].tasks| && !states[k].tasks[i].Waiting?) ==>
      forall i :: 0 <= i < c.n ==> c.hookOk(i)
  {
    AlwaysInvariant(c, steps, states, k);
  }

  /** No schedule gets stuck: until the function returns some step is enabled. */
  lemma {:induction false} NeverStuck<R>(c: Calls<R>, s: State<R>) returns (step: Move)
    requires Invariant(c, s) && !s.phase.Returned? && c.maxConcurrent >= 1
    ensures Enabled(c, s, step)
  {
    match s.phase {
      case Hooks(k) => step := if k < c.n then FireHook else FinishHooks;
      case Dispatching(k) =>
        if s.slots > 0 {
          var i := SomeInFlight(s.tasks);
          step := if s.tasks[i].Running? then Store(i) else Release(i);
        } else if k < c.n {
          step := Acquire;
        } else {
          step := Join;
          NoSlotsAllDone(s.tasks);
        }
    }
  }

  lemma {:induction false} NoSlotsAllDone(tasks: seq<Task>)
    requires InFlight(tasks) == 0 && forall i :: 0 <= i < |tasks| ==> !tasks[i].Waiting?
    ensures forall i :: 0 <= i < |tasks| ==> tasks[i].Done?
    decreases |tasks|
  {
    if tasks != [] { NoSlotsAllDone(tasks[..|tasks| - 1]); }
  }

  /** Steps a task still has to take. */
  function Remaining(tasks: seq<Task>): nat {
    if tasks == [] then 0
    else
      Remaining(tasks[..|tasks| - 1]) +
      match tasks[|tasks| - 1] case Waiting => 3 case Running => 2 case Stored => 1 case Done => 0
  }

  function Measure<R>(c: Calls<R>, s: State<R>): nat {
    Remaining(s.tasks) + match s.phase
      case Hooks(k) => (if k <= c.n then c.n - k else 0) + 2
      case Dispatching(_) => 1
      case Returned(_) => 0
  }

  lemma {:induction false} RemainingUpdate(tasks: seq<Task>, i: nat)
    requires i < |tasks|
    ensures tasks[i].Waiting? ==> Remaining(tasks[i := Running]) == Remaining(tasks) - 1
    ensures tasks[i].Running? ==> Remaining(tasks[i := Stored]) == Remaining(tasks) - 1
    ensures tasks[i].Stored? ==> Remaining(tasks[i := Done]) == Remaining(tasks) - 1
    decreases |tasks|
  {
    var n := |tasks| - 1;
    if i < n {
      RemainingUpdate(tasks[..n], i);
      assert tasks[i := Running][..n] == tasks[..n][i := Running];
      assert tasks[i := Stored][..n] == tasks[..n][i := Stored];
      assert tasks[i := Done][..n] == tasks[..n][i := Done];
    } else {
      assert tasks[i := Running][..n] == tasks[..n];
      assert tasks[i := Stored][..n] == tasks[..n];
      assert tasks[i := Done][..n] == tasks[..n];
    }
  }

  lemma {:induction false} StepDecreases<R>(c: Calls<R>, s: State<R>, step: Move)
    requires Invariant(c, s) && Enabled(c, s, step)
    ensures Measure(c, Apply(c, s, step)) < Measure(c, s)
  {
    match step {
      case Acquire => RemainingUpdate(s.tasks, s.phase.next);
      case Store(i) => RemainingUpdate(s.tasks, i);
      case Release(i) => RemainingUpdate(s.tasks, i);
      case _ =>
    }
  }

  lemma {:induction false} InitMeasure(tasks: seq<Task>)
    requires forall i :: 0 <= i < |tasks| ==> tasks[i].Waiting?
    ensures Remaining(tasks) == 3 * |tasks|
    decreases |tasks|
  {
    if tasks != [] { InitMeasure(tasks[..|tasks| - 1]); }
  }

  /** Every schedule is finite: it takes at most 4n + 2 steps. */
  lemma {:induction false} SchedulesEnd<R>(c: Calls<R>, steps: seq<Move>, states: seq<State<R>>)
    requires Executes(c, steps, states)
    ensures |steps| <= 4 * c.n + 2
  {
    MeasureFalls(c, steps, states, |steps|);
    InitMeasure(Init(c).tasks);
  }

  lemma {:induction false} MeasureFalls<R>(c: Calls<R>, steps: seq<Move>, states: seq<State<R>>, k: nat)
    requires Executes(c, steps, states) && k <= |steps|
    ensures Measure(c, states[k]) + k <= Measure(c, Init(c))
    decreases k
  {
    if k > 0 {
      MeasureFalls(c, steps, states, k - 1);
      AlwaysInvariant(c, steps, states, k - 1);
      StepDecreases(c, states[k - 1], steps[k - 1]);
    }
  }

  /** When the function returns, no task is in flight. With every hook successful the outcomes are the
      per-call results whatever the schedule; otherwise nothing has run. */
  lemma {:induction false} OutcomesIgnoreSchedule<R>(c: Calls<R>, steps: seq<Move>, states: seq<State<R>>)
    requires Executes(c, steps, states) && states[|steps|].phase.Returned?
    ensures var last := states[|steps|];
      && InFlight(last.tasks) == 0
      && (last.phase.ok <==> forall i :: 0 <= i < c.n ==> c.hookOk(i))
      && last.outcomes == if last.phase.ok then seq(c.n, i requires 0 <= i < c.n => Some(c.result(i)))
        else seq(c.n, _ => None)
  {
    AlwaysInvariant(c, steps, states, |steps|);
    NoneInFlight(states[|steps|].tasks);
  }
}
