/** Shutting the runtime down: no invocation starts any more, and the tasks inside one, with the
    cleanups they left behind, are cancelled and waited for within a budget. */
module RuntimeShutdown {

  type TaskId = nat

  /** One task of the event loop. `frames` are the invocations it is inside, outermost first, each with
      whether that invocation registered the task and so has to take it off the register again. */
  datatype Task = Task(frames: seq<bool>, done: bool)

  /** A call of shutdown: about to look for pending tasks, waiting for those it found, or answered. */
  datatype Wait =
    | Polling(deadline: nat)
    | Waiting(deadline: nat, pending: set<TaskId>)
    | Answered(success: bool)

  /** `active` and `cleaning` are the runtime's two registers; `cleanups` are all the cleanup tasks there
      ever were, and `asked` the tasks that were asked to cancel. */
  datatype State = State(clock: nat, closing: bool, tasks: map<TaskId, Task>, active: set<TaskId>,
                         cleaning: set<TaskId>, cleanups: set<TaskId>, asked: set<TaskId>,
                         waits: map<TaskId, Wait>)

  const IDLE: State := State(0, false, map[], {}, {}, {}, {}, map[])

  datatype Step =
    | Tick(elapsed: nat)
    | Spawn(task: TaskId)
    | Enter(task: TaskId)
    | Leave(task: TaskId)
    | Clean(task: TaskId, cleanup: TaskId)
    | Stop(task: TaskId)
    | Discard(cleanup: TaskId)
    | Ask(task: TaskId)
    | Shutdown(caller: TaskId, budget: nat)
    | Poll(caller: TaskId)
    | Wake(caller: TaskId)
    | Withdraw(caller: TaskId)

  predicate Runs(s: State, t: TaskId) { t in s.tasks && !s.tasks[t].done }

  predicate Inside(s: State, t: TaskId) { t in s.tasks && s.tasks[t].frames != [] }

  /** The registered tasks that have not ended. */
  function Pending(s: State): set<TaskId> { set t | t in s.active + s.cleaning && Runs(s, t) }

  predicate Waits(s: State, caller: TaskId) { caller in s.waits && !s.waits[caller].Answered? }

  /** A closed runtime is not entered, not even by a task that is inside it; a task inside an invocation
      cannot shut the runtime down; a task ends only once it has left every invocation. The callback that
      takes a cleanup off its register comes some time after the cleanup ended. A shutdown that is itself
      cancelled withdraws without an answer. */
  predicate Can(s: State, step: Step) {
    match step
    case Tick(_) => true
    case Spawn(t) => t !in s.tasks
    case Enter(t) => Runs(s, t) && !s.closing
    case Leave(t) => Runs(s, t) && Inside(s, t)
    case Clean(t, c) => Runs(s, t) && Inside(s, t) && c !in s.tasks
    case Stop(t) => Runs(s, t) && !Inside(s, t) && !Waits(s, t)
    case Discard(c) => c in s.cleaning && !Runs(s, c)
    case Ask(t) => Runs(s, t)
    case Shutdown(caller, budget) => Runs(s, caller) && !Waits(s, caller) && caller !in s.active && budget > 0
    case Poll(caller) => caller in s.waits && s.waits[caller].Polling?
    case Wake(caller) =>
      && caller in s.waits && s.waits[caller].Waiting?
      && (s.waits[caller].deadline <= s.clock || forall t | t in s.waits[caller].pending :: !Runs(s, t))
    case Withdraw(caller) => Waits(s, caller)
  }

  /** Entering registers the task unless an outer invocation of the same task has. */
  function Entered(s: State, t: TaskId): State
    requires t in s.tasks
  {
    s.(tasks := s.tasks[t := s.tasks[t].(frames := s.tasks[t].frames + [t !in s.active])],
       active := s.active + {t})
  }

  /** Leaving takes the task off the register if this invocation put it there. */
  function Left(s: State, t: TaskId): State
    requires Inside(s, t)
  {
    var frames := s.tasks[t].frames;
    s.(tasks := s.tasks[t := s.tasks[t].(frames := frames[..|frames| - 1])],
       active := if frames[|frames| - 1] then s.active - {t} else s.active)
  }

  /** Look for pending tasks: none is success, and none in time is failure. */
  function Polled(s: State, deadline: nat): Wait {
    if Pending(s) == {} then Answered(true)
    else if deadline <= s.clock then Answered(false)
    else Waiting(deadline, Pending(s))
  }

  function Do(s: State, step: Step): State
    requires Can(s, step)
  {
    match step
    case Tick(elapsed) => s.(clock := s.clock + elapsed)
    case Spawn(t) => s.(tasks := s.tasks[t := Task([], false)])
    case Enter(t) => Entered(s, t)
    case Leave(t) => Left(s, t)
    case Clean(_, c) => s.(tasks := s.tasks[c := Task([], false)], cleaning := s.cleaning + {c},
                           cleanups := s.cleanups + {c})
    case Stop(t) => s.(tasks := s.tasks[t := s.tasks[t].(done := true)])
    case Discard(c) => s.(cleaning := s.cleaning - {c})
    case Ask(t) => s.(asked := s.asked + {t})
    case Shutdown(caller, budget) =>
      s.(closing := true, asked := s.asked + s.active, waits := s.waits[caller := Polling(s.clock + budget)])
    case Poll(caller) => s.(waits := s.waits[caller := Polled(s, s.waits[caller].deadline)])
    case Wake(caller) => s.(waits := s.waits[caller := Polling(s.waits[caller].deadline)])
    case Withdraw(caller) => s.(waits := s.waits - {caller})
  }

  // ----- what every step keeps -----

  /** The outermost invocation of a task, and no other, has registered it. */
  predicate FramesOk(task: Task) {
    && (forall k | 0 <= k < |task.frames| :: task.frames[k] <==> k == 0)
    && (task.done ==> task.frames == [])
  }

  /** The register of invocations is exact: a task is on it as long as it is inside at least one. */
  ghost predicate Registered(s: State) {
    && (forall t | t in s.tasks :: FramesOk(s.tasks[t]))
    && (forall t :: t in s.active <==> Inside(s, t))
  }

  /** A cleanup is on its register at least until it has ended. */
  ghost predicate Cleaned(s: State) {
    && s.cleaning <= s.cleanups
    && (forall c | c in s.cleanups :: c in s.tasks && (c in s.cleaning || s.tasks[c].done))
  }

  /** Every invocation has ended and so has every cleanup. */
  ghost predicate Drained(s: State) {
    && (forall t | t in s.tasks :: s.tasks[t].frames == [])
    && (forall c | c in s.cleanups :: c in s.tasks && s.tasks[c].done)
  }

  ghost predicate WaitsOk(s: State) {
    && (s.waits != map[] ==> s.closing)
    && (forall u | u in s.waits && s.waits[u] == Answered(true) :: Drained(s))
  }

  ghost predicate Inv(s: State) {
    && Registered(s) && Cleaned(s) && WaitsOk(s)
    && (s.closing ==> s.active <= s.asked)
  }

  lemma EnterKeeps(s: State, t: TaskId)
    requires Registered(s) && Runs(s, t)
    ensures Registered(Entered(s, t))
  {
    var next := Entered(s, t);
    assert FramesOk(s.tasks[t]);
    forall u ensures u in next.active <==> Inside(next, u) {
      assert u in s.active <==> Inside(s, u);
    }
  }

  /** Leaving an inner invocation keeps the task on the register, leaving the outermost one does not. */
  lemma LeaveKeeps(s: State, t: TaskId)
    requires Registered(s) && Runs(s, t) && Inside(s, t)
    ensures Registered(Left(s, t))
  {
    var next := Left(s, t);
    assert FramesOk(s.tasks[t]);
    forall u ensures u in next.active <==> Inside(next, u) {
      assert u in s.active <==> Inside(s, u);
    }
  }

  /** Nothing pending means nothing inside and no cleanup going on, and conversely. */
  lemma PendingIsExact(s: State)
    requires Registered(s) && Cleaned(s)
    ensures Pending(s) == {} <==> Drained(s)
  {
    if Pending(s) == {} {
      forall t | t in s.tasks ensures s.tasks[t].frames == [] {
        assert t in s.active <==> Inside(s, t);
        assert FramesOk(s.tasks[t]);
        assert t !in Pending(s);
      }
      forall c | c in s.cleanups ensures s.tasks[c].done { assert c !in Pending(s); }
    } else {
      var t :| t in Pending(s);
      assert t in s.active <==> Inside(s, t);
    }
  }

  /** Once the runtime is closing, a drained runtime stays drained. */
  lemma DrainedStays(s: State, step: Step)
    requires Can(s, step) && s.closing && Drained(s)
    ensures Drained(Do(s, step))
  {
  }

  lemma RegistersKeep(s: State, step: Step)
    requires Inv(s) && Can(s, step)
    ensures Registered(Do(s, step)) && Cleaned(Do(s, step))
  {
    match step
    case Enter(t) => EnterKeeps(s, t);
    case Leave(t) => LeaveKeeps(s, t);
    case _ =>
      forall u ensures u in Do(s, step).active <==> Inside(Do(s, step), u) {
        assert u in s.active <==> Inside(s, u);
      }
  }

  /** Whatever a task, a callback, the clock or a shutdown does next, the registers stay exact. */
  lemma StepKeeps(s: State, step: Step)
    requires Inv(s) && Can(s, step)
    ensures Inv(Do(s, step))
  {
    RegistersKeep(s, step);
    hide Registered, Cleaned, Drained;
    if s.closing && Drained(s) { DrainedStays(s, step); }
    if step.Poll? { PendingIsExact(s); }
  }

  // ----- over whole schedules -----

  predicate Possible(steps: seq<Step>)
    decreases |steps|, 0
  {
    |steps| > 0 ==> Possible(steps[..|steps| - 1]) && Can(After(steps[..|steps| - 1]), steps[|steps| - 1])
  }

  function After(steps: seq<Step>): State
    requires Possible(steps)
    decreases |steps|, 1
  {
    if |steps| == 0 then IDLE else Do(After(steps[..|steps| - 1]), steps[|steps| - 1])
  }

  lemma {:induction false} AlwaysInv(steps: seq<Step>)
    requires Possible(steps)
    ensures Inv(After(steps))
  {
    if |steps| > 0 {
      AlwaysInv(steps[..|steps| - 1]);
      StepKeeps(After(steps[..|steps| - 1]), steps[|steps| - 1]);
    }
  }

  /** In every schedule a task is on the register exactly while it is inside an invocation, however often
      it entered one within another; and once the runtime closes, every task inside was asked to cancel. */
  lemma RegisteredIffInside(steps: seq<Step>, t: TaskId)
    requires Possible(steps)
    ensures t in After(steps).active <==> Inside(After(steps), t)
    ensures After(steps).closing && Inside(After(steps), t) ==> t in After(steps).asked
  {
    AlwaysInv(steps);
  }

  /** A shutdown that looks for pending tasks reports success exactly when every invocation has been left
      and every cleanup has ended, even when its budget is spent; it fails exactly when something is left
      and the budget is spent. */
  lemma AnswerIsExact(steps: seq<Step>, caller: TaskId)
    requires Possible(steps) && Can(After(steps), Poll(caller))
    ensures var s := After(steps);
            var answer := Do(s, Poll(caller)).waits[caller];
            && (answer == Answered(true) <==> Drained(s))
            && (answer == Answered(false) <==> !Drained(s) && s.waits[caller].deadline <= s.clock)
  {
    AlwaysInv(steps);
    PendingIsExact(After(steps));
  }

  /** Nothing goes on in the runtime, and nothing can start in it. */
  ghost predicate Closed(s: State) {
    && s.closing && Drained(s) && s.active == {}
    && (forall t :: !Can(s, Enter(t)))
    && (forall t, c :: !Can(s, Clean(t, c)))
  }

  lemma {:induction false} AnswerStays(steps: seq<Step>, i: nat, caller: TaskId)
    requires Possible(steps) && i <= |steps| && Possible(steps[..i])
    requires caller in After(steps[..i]).waits && After(steps[..i]).waits[caller] == Answered(true)
    ensures After(steps).closing && Drained(After(steps))
    decreases |steps|
  {
    if i == |steps| {
      assert steps[..i] == steps;
      AlwaysInv(steps);
    } else {
      var init := steps[..|steps| - 1];
      assert init[..i] == steps[..i];
      AnswerStays(init, i, caller);
      DrainedStays(After(init), steps[|steps| - 1]);
    }
  }

  /** Once a shutdown has reported success, then at every later time no task is inside an invocation, every
      cleanup has ended, and neither an invocation nor a cleanup can start. */
  lemma DrainedIsFinal(steps: seq<Step>, i: nat, caller: TaskId)
    requires Possible(steps) && i <= |steps| && Possible(steps[..i])
    requires caller in After(steps[..i]).waits && After(steps[..i]).waits[caller] == Answered(true)
    ensures Closed(After(steps))
  {
    AnswerStays(steps, i, caller);
    AlwaysInv(steps);
    var s := After(steps);
    forall t ensures t !in s.active { assert t in s.active <==> Inside(s, t); }
  }

  function Depth(s: State, t: TaskId): nat { if t in s.tasks then |s.tasks[t].frames| else 0 }

  lemma ClosingStepShrinks(s: State, step: Step, t: TaskId)
    requires Can(s, step) && s.closing
    ensures Do(s, step).closing && Depth(Do(s, step), t) <= Depth(s, t)
  {
  }

  /** While the runtime closes, no task goes deeper into it: what is pending comes from invocations that
      had entered before. */
  lemma {:induction false} ClosingOnlyShrinks(steps: seq<Step>, i: nat, t: TaskId)
    requires Possible(steps) && i <= |steps| && Possible(steps[..i]) && After(steps[..i]).closing
    ensures After(steps).closing && Depth(After(steps), t) <= Depth(After(steps[..i]), t)
  {
    hide Do, Can, Depth;
    if i == |steps| {
      assert steps[..i] == steps;
    } else {
      var init := steps[..|steps| - 1];
      assert init[..i] == steps[..i];
      ClosingOnlyShrinks(init, i, t);
      ClosingStepShrinks(After(init), steps[|steps| - 1], t);
    }
  }

  /** A shutdown never waits past its budget: from its deadline on it can wake, look once more, and answer,
      whatever the tasks do. */
  lemma BudgetEndsTheWait(steps: seq<Step>, caller: TaskId)
    requires Possible(steps) && Waits(After(steps), caller) && After(steps).waits[caller].deadline <= After(steps).clock
    ensures var s := After(steps);
            var awake := if s.waits[caller].Waiting? then Do(s, Wake(caller)) else s;
            && Can(s, if s.waits[caller].Waiting? then Wake(caller) else Poll(caller))
            && Can(awake, Poll(caller))
            && Do(awake, Poll(caller)).waits[caller] == Answered(Pending(s) == {})
  {
    var s := After(steps);
    if s.waits[caller].Waiting? { assert Pending(Do(s, Wake(caller))) == Pending(s); }
  }

  /** A shutdown asks exactly the tasks inside an invocation to cancel; it spares the cleanups. */
  lemma ShutdownAsksInside(steps: seq<Step>, caller: TaskId, budget: nat)
    requires Possible(steps) && Can(After(steps), Shutdown(caller, budget))
    ensures !Inside(After(steps), caller) && budget > 0
    ensures forall t :: t in Do(After(steps), Shutdown(caller, budget)).asked <==>
                          t in After(steps).asked || Inside(After(steps), t)
  {
    AlwaysInv(steps);
    assert forall t :: t in After(steps).active <==> Inside(After(steps), t);
  }

  /** Only a task that is outside begins to wait, and while it waits it stays so. */
  lemma WaiterStays(s: State, step: Step, caller: TaskId)
    requires Inv(s) && Can(s, step) && Waits(Do(s, step), caller)
    requires Waits(s, caller) ==> Runs(s, caller) && !Inside(s, caller)
    ensures Runs(Do(s, step), caller) && !Inside(Do(s, step), caller)
  {
    assert s.waits != map[] ==> s.closing;
    assert caller in s.active <==> Inside(s, caller);
    hide Inv, Registered, Cleaned, WaitsOk;
  }

  /** A task that waits for a shutdown of its own has not ended, is inside no invocation, so that it never
      waits for itself to leave one, and calls no other shutdown meanwhile. */
  lemma {:induction false} WaiterIsOutside(steps: seq<Step>, caller: TaskId)
    requires Possible(steps) && Waits(After(steps), caller)
    ensures After(steps).closing && Runs(After(steps), caller) && !Inside(After(steps), caller)
    ensures forall budget :: !Can(After(steps), Shutdown(caller, budget))
  {
    var init := steps[..|steps| - 1];
    AlwaysInv(init);
    AlwaysInv(steps);
    hide Registered, Cleaned, Drained;
    if Waits(After(init), caller) { WaiterIsOutside(init, caller); }
    WaiterStays(After(init), steps[|steps| - 1], caller);
  }

  /** The call of shutdown is still the caller's own: not repeated, and not withdrawn. */
  predicate Undisturbed(steps: seq<Step>, i: nat, caller: TaskId) {
    forall k | i < k < |steps| ::
      steps[k] != Withdraw(caller) && !(steps[k].Shutdown? && steps[k].caller == caller)
  }

  /** A shutdown keeps the deadline it set when it was called, and reports failure only once its whole
      budget has passed. */
  lemma {:induction false} FailureSpendsBudget(steps: seq<Step>, i: nat, caller: TaskId, budget: nat)
    requires Possible(steps) && i < |steps| && Possible(steps[..i])
    requires steps[i] == Shutdown(caller, budget) && Undisturbed(steps, i, caller)
    ensures caller in After(steps).waits
    ensures var wait, start := After(steps).waits[caller], After(steps[..i]).clock;
            && (!wait.Answered? ==> wait.deadline == start + budget)
            && (wait == Answered(false) ==> start + budget <= After(steps).clock)
  {
    var n := |steps| - 1;
    if i < n {
      assert steps[..n][..i] == steps[..i];
      FailureSpendsBudget(steps[..n], i, caller, budget);
      assert steps[n] != Withdraw(caller);
    }
  }

  /** What the caller waits for, if it waits, are tasks that exist, at least one. */
  predicate WaitsForTasks(s: State, caller: TaskId) {
    caller in s.waits && s.waits[caller].Waiting? ==>
      s.waits[caller].pending != {} && s.waits[caller].pending <= s.tasks.Keys
  }

  lemma WaitsForTasksStays(s: State, step: Step, caller: TaskId)
    requires Can(s, step) && WaitsForTasks(s, caller)
    ensures WaitsForTasks(Do(s, step), caller)
  {
    assert s.tasks.Keys <= Do(s, step).tasks.Keys;
    if step.Poll? { assert Pending(s) <= s.tasks.Keys; }
  }

  lemma {:induction false} AlwaysWaitsForTasks(steps: seq<Step>, caller: TaskId)
    requires Possible(steps)
    ensures WaitsForTasks(After(steps), caller)
  {
    if |steps| > 0 {
      hide WaitsForTasks, Do, Can;
      AlwaysWaitsForTasks(steps[..|steps| - 1], caller);
      WaitsForTasksStays(After(steps[..|steps| - 1]), steps[|steps| - 1], caller);
    }
  }

  /** What a waiting shutdown waits for was on a register and going on when it looked; it wakes only once
      all of that has ended, or its deadline has come. */
  lemma WakesForReason(steps: seq<Step>, caller: TaskId)
    requires Possible(steps) && caller in After(steps).waits && After(steps).waits[caller].Waiting?
    ensures var s := After(steps);
            && s.waits[caller].pending != {}
            && (forall t | t in s.waits[caller].pending :: t in s.tasks)
            && (Can(s, Wake(caller)) <==>
                  || s.waits[caller].deadline <= s.clock
                  || forall t | t in s.waits[caller].pending :: s.tasks[t].done)
  {
    AlwaysWaitsForTasks(steps, caller);
    hide After, Possible;
  }

  /** However long the tasks take, a waiting shutdown has its answer after its budget: let the clock reach the
      deadline, wake it if it waits, and let it look. */
  lemma WaitCanEnd(steps: seq<Step>, caller: TaskId)
    requires Possible(steps) && Waits(After(steps), caller)
    ensures var s := After(steps);
            var left := if s.waits[caller].deadline <= s.clock then 0 else s.waits[caller].deadline - s.clock;
            var later := Do(s, Tick(left));
            var awake := if s.waits[caller].Waiting? then Do(later, Wake(caller)) else later;
            && Can(later, if s.waits[caller].Waiting? then Wake(caller) else Poll(caller))
            && Can(awake, Poll(caller)) && Do(awake, Poll(caller)).waits[caller].Answered?
  {
  }

  /** A new task can enter the runtime exactly until it closes. */
  lemma NewTaskEntersIff(steps: seq<Step>, t: TaskId)
    requires Possible(steps) && t !in After(steps).tasks
    ensures Can(After(steps), Spawn(t))
    ensures var s := Do(After(steps), Spawn(t));
            && (Can(s, Enter(t)) <==> !After(steps).closing)
            && (Can(s, Enter(t)) ==> Inside(Do(s, Enter(t)), t) && t in Do(s, Enter(t)).active)
  {
  }
}
