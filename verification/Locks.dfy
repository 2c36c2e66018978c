/** The locks of the controller, step by step: map lock, one mutex per service, service lock, broker lock. */
module Locks {
  import opened Results

  /** What a run does while it holds its key: broker calls, and sections under the service lock with some calls each. */
  datatype Part = Call | Section(calls: nat)

  /** A run for one service. */
  datatype Task = Task(key: string, parts: seq<Part>)

  /** A run, or a broker call that is made without a key: a status that is asked for, a listing of the collection. */
  datatype Job = Keyed(task: Task) | Bare

  /** Where a thread is. `id` is the mutex it found for its key. */
  datatype Pc =
    | Idle
    | InMap(task: Task)                                   // has the map lock, about to look up its key
    | Found(task: Task, id: nat)                          // has the map lock and the mutex of its key
    | Waiting(task: Task, id: nat)                        // has let go of the map lock, about to lock the mutex
    | Working(task: Task, parts: seq<Part>)               // has the mutex
    | Calling(task: Task, parts: seq<Part>)               // has the mutex and the broker lock
    | InSection(task: Task, parts: seq<Part>, calls: nat) // has the mutex and the service lock
    | SectionCall(task: Task, parts: seq<Part>, calls: nat) // has the mutex, the service lock and the broker lock
    | Unlocking(task: Task)                               // has the mutex and the map lock
    | Unlocked(task: Task)                                // has the map lock
    | Asking                                              // has the broker lock, and no key
    | Panicked

  datatype Thread = Thread(todo: seq<Job>, pc: Pc)

  datatype System = System(mapLock: Option<nat>, serviceLock: Option<nat>, brokerLock: Option<nat>,
                           keys: map<string, nat>, mutexes: seq<Option<nat>>, threads: seq<Thread>)

  function At(s: System, t: nat, pc: Pc): System
    requires t < |s.threads|
  {
    s.(threads := s.threads[t := s.threads[t].(pc := pc)])
  }

  /** The mutex of a key is created on first use, and kept. */
  function LookUp(s: System, t: nat, task: Task): System
    requires t < |s.threads|
  {
    if task.key in s.keys then At(s, t, Found(task, s.keys[task.key]))
    else At(s, t, Found(task, |s.mutexes|)).(keys := s.keys[task.key := |s.mutexes|], mutexes := s.mutexes + [None])
  }

  /** Unlocking a key that is unknown, or whose mutex is not locked, panics. */
  function Unlock(s: System, t: nat, task: Task): System
    requires t < |s.threads|
  {
    if task.key !in s.keys then At(s, t, Panicked)
    else
      var id := s.keys[task.key];
      if id >= |s.mutexes| || s.mutexes[id].None? then At(s, t, Panicked)
      else At(s, t, Unlocked(task)).(mutexes := s.mutexes[id := None])
  }

  /** One step of thread `t`; a thread that has to wait stays where it is. */
  function Step(s: System, t: nat): (s': System)
    requires t < |s.threads|
    ensures |s'.threads| == |s.threads|
  {
    var thread := s.threads[t];
    match thread.pc
    case Idle =>
      if thread.todo == [] then s
      else if thread.todo[0].Bare? then
        if s.brokerLock.Some? then s
        else s.(brokerLock := Some(t), threads := s.threads[t := Thread(thread.todo[1..], Asking)])
      else if s.mapLock.Some? then s
      else s.(mapLock := Some(t), threads := s.threads[t := Thread(thread.todo[1..], InMap(thread.todo[0].task))])
    case Asking => At(s, t, Idle).(brokerLock := None)
    case InMap(task) => LookUp(s, t, task)
    case Found(task, id) => At(s, t, Waiting(task, id)).(mapLock := None)
    case Waiting(task, id) =>
      if id >= |s.mutexes| || s.mutexes[id].Some? then s
      else At(s, t, Working(task, task.parts)).(mutexes := s.mutexes[id := Some(t)])
    case Working(task, parts) =>
      if parts == [] then
        if s.mapLock.Some? then s else At(s, t, Unlocking(task)).(mapLock := Some(t))
      else if parts[0].Call? then
        if s.brokerLock.Some? then s else At(s, t, Calling(task, parts[1..])).(brokerLock := Some(t))
      else
        if s.serviceLock.Some? then s
        else At(s, t, InSection(task, parts[1..], parts[0].calls)).(serviceLock := Some(t))
    case Calling(task, parts) => At(s, t, Working(task, parts)).(brokerLock := None)
    case InSection(task, parts, calls) =>
      if calls == 0 then At(s, t, Working(task, parts)).(serviceLock := None)
      else if s.brokerLock.Some? then s
      else At(s, t, SectionCall(task, parts, calls - 1)).(brokerLock := Some(t))
    case SectionCall(task, parts, calls) => At(s, t, InSection(task, parts, calls)).(brokerLock := None)
    case Unlocking(task) => Unlock(s, t, task)
    case Unlocked(_) => At(s, t, Idle).(mapLock := None)
    case Panicked => s
  }

  /** The state after a schedule: the threads that move, one after the other. */
  function After(s: System, schedule: seq<nat>): System
    decreases |schedule|
  {
    if schedule == [] then s
    else After(if schedule[0] < |s.threads| then Step(s, schedule[0]) else s, schedule[1..])
  }

  predicate HasMap(pc: Pc)
  {
    pc.InMap? || pc.Found? || pc.Unlocking? || pc.Unlocked?
  }

  predicate HasService(pc: Pc)
  {
    pc.InSection? || pc.SectionCall?
  }

  predicate HasBroker(pc: Pc)
  {
    pc.Calling? || pc.SectionCall? || pc.Asking?
  }

  /** In the critical section of its key. */
  predicate HasKey(pc: Pc)
  {
    pc.Working? || pc.Calling? || pc.InSection? || pc.SectionCall? || pc.Unlocking?
  }

  /** What thread `t` is recorded to hold is what it holds. */
  ghost predicate Recorded(s: System, t: nat)
    requires t < |s.threads|
  {
    var pc := s.threads[t].pc;
    && (s.mapLock == Some(t) <==> HasMap(pc))
    && (s.serviceLock == Some(t) <==> HasService(pc))
    && (s.brokerLock == Some(t) <==> HasBroker(pc))
    && (pc.Found? || pc.Waiting? ==> pc.task.key in s.keys && s.keys[pc.task.key] == pc.id)
    && (HasKey(pc) ==> pc.task.key in s.keys)
    && (forall id :: 0 <= id < |s.mutexes| ==>
          (s.mutexes[id] == Some(t) <==> HasKey(pc) && s.keys[pc.task.key] == id))
    && !pc.Panicked?
  }

  /** Every key has a mutex of its own. */
  ghost predicate KeysOk(s: System)
  {
    && (forall key :: key in s.keys ==> s.keys[key] < |s.mutexes|)
    && (forall a, b :: a in s.keys && b in s.keys && s.keys[a] == s.keys[b] ==> a == b)
  }

  /** Locks are held by threads that exist. */
  ghost predicate HoldersExist(s: System)
  {
    && (s.mapLock.Some? ==> s.mapLock.value < |s.threads|)
    && (s.serviceLock.Some? ==> s.serviceLock.value < |s.threads|)
    && (s.brokerLock.Some? ==> s.brokerLock.value < |s.threads|)
    && (forall id :: 0 <= id < |s.mutexes| && s.mutexes[id].Some? ==> s.mutexes[id].value < |s.threads|)
  }

  ghost predicate Inv(s: System)
  {
    KeysOk(s) && HoldersExist(s) && forall t :: 0 <= t < |s.threads| ==> Recorded(s, t)
  }

  /** Any number of threads with any tasks, before the first step. */
  ghost predicate Initial(s: System)
  {
    && s.mapLock == None && s.serviceLock == None && s.brokerLock == None && s.keys == map[] && s.mutexes == []
    && forall t :: 0 <= t < |s.threads| ==> s.threads[t].pc == Idle
  }

  lemma InitialOk(s: System)
    requires Initial(s)
    ensures Inv(s)
  {
  }

  lemma LookUpOk(s: System, t: nat, task: Task)
    requires Inv(s) && t < |s.threads| && s.threads[t].pc == InMap(task)
    ensures Inv(LookUp(s, t, task))
  {
    var s' := LookUp(s, t, task);
    assert Recorded(s, t);
    forall u | 0 <= u < |s'.threads| ensures Recorded(s', u) {
      assert Recorded(s, u);
    }
  }

  lemma LockMutexOk(s: System, t: nat)
    requires Inv(s) && t < |s.threads| && s.threads[t].pc.Waiting?
    ensures Inv(Step(s, t))
  {
    var s' := Step(s, t);
    assert Recorded(s, t);
    forall u | 0 <= u < |s'.threads| ensures Recorded(s', u) {
      assert Recorded(s, u);
    }
  }

  /** Its holder unlocks a key without a panic. */
  lemma UnlockOk(s: System, t: nat, task: Task)
    requires Inv(s) && t < |s.threads| && s.threads[t].pc == Unlocking(task)
    ensures Inv(Unlock(s, t, task)) && Unlock(s, t, task).threads[t].pc == Unlocked(task)
  {
    var s' := Unlock(s, t, task);
    assert Recorded(s, t);
    var id := s.keys[task.key];
    assert s.mutexes[id] == Some(t);
    forall u | 0 <= u < |s'.threads| ensures Recorded(s', u) {
      assert Recorded(s, u);
    }
  }

  /** A step that takes or gives back one of the three global locks, and no mutex. */
  lemma GlobalStepOk(s: System, t: nat)
    requires Inv(s) && t < |s.threads|
    requires var pc := s.threads[t].pc; !pc.InMap? && !pc.Waiting? && !pc.Unlocking?
    ensures Inv(Step(s, t))
  {
    hide Step, Recorded, KeysOk, HoldersExist;
    GlobalStepHolders(s, t);
    GlobalStepOwn(s, t);
    forall u | 0 <= u < |s.threads| && u != t ensures Recorded(Step(s, t), u) {
      GlobalStepOther(s, t, u);
    }
  }

  lemma GlobalStepHolders(s: System, t: nat)
    requires KeysOk(s) && HoldersExist(s) && t < |s.threads|
    requires var pc := s.threads[t].pc; !pc.InMap? && !pc.Waiting? && !pc.Unlocking?
    ensures var s' := Step(s, t);
            |s'.threads| == |s.threads| && KeysOk(s') && HoldersExist(s')
  {
    hide Step;
    GlobalStepShape(s, t);
  }

  lemma GlobalStepShape(s: System, t: nat)
    requires t < |s.threads|
    requires var pc := s.threads[t].pc; !pc.InMap? && !pc.Waiting? && !pc.Unlocking?
    ensures var s' := Step(s, t);
            && |s'.threads| == |s.threads| && s'.keys == s.keys && s'.mutexes == s.mutexes
            && s'.mapLock in {s.mapLock, None, Some(t)}
            && s'.serviceLock in {s.serviceLock, None, Some(t)}
            && s'.brokerLock in {s.brokerLock, None, Some(t)}
  {
    hide LookUp, Unlock;
  }

  /** The thread holds the locks that its next step is in, and its key as before. */
  lemma GlobalStepPc(s: System, t: nat)
    requires t < |s.threads|
    requires var pc := s.threads[t].pc;
             && !pc.InMap? && !pc.Waiting? && !pc.Unlocking? && !pc.Panicked?
             && (s.mapLock == Some(t) <==> HasMap(pc)) && (s.serviceLock == Some(t) <==> HasService(pc))
             && (s.brokerLock == Some(t) <==> HasBroker(pc))
    ensures var s' := Step(s, t);
            var pc, pc' := s.threads[t].pc, s'.threads[t].pc;
            && (s'.mapLock == Some(t) <==> HasMap(pc')) && (s'.serviceLock == Some(t) <==> HasService(pc'))
            && (s'.brokerLock == Some(t) <==> HasBroker(pc')) && !pc'.Panicked?
            && (HasKey(pc') <==> HasKey(pc)) && (HasKey(pc) ==> pc'.task == pc.task)
            && (pc'.Found? || pc'.Waiting? ==> (pc.Found? || pc.Waiting?) && pc'.task == pc.task && pc'.id == pc.id)
  {
    hide LookUp, Unlock;
    var pc := s.threads[t].pc;
    if pc.Idle? {
    } else if pc.Working? {
    } else if pc.InSection? {
    } else if pc.Calling? || pc.SectionCall? || pc.Asking? {
    }
  }

  lemma GlobalStepOwn(s: System, t: nat)
    requires t < |s.threads| && Recorded(s, t)
    requires var pc := s.threads[t].pc; !pc.InMap? && !pc.Waiting? && !pc.Unlocking?
    ensures Recorded(Step(s, t), t)
  {
    hide Step, HasMap, HasService, HasBroker;
    GlobalStepShape(s, t);
    GlobalStepPc(s, t);
  }

  /** What belongs to other threads, and which of the locks they hold. */
  lemma GlobalStepLeaves(s: System, t: nat, u: nat)
    requires t < |s.threads| && Recorded(s, t) && u < |s.threads| && u != t
    requires var pc := s.threads[t].pc; !pc.InMap? && !pc.Waiting? && !pc.Unlocking?
    ensures var s' := Step(s, t);
            && |s'.threads| == |s.threads| && s'.threads[u] == s.threads[u]
            && (s'.mapLock == Some(u) <==> s.mapLock == Some(u))
            && (s'.serviceLock == Some(u) <==> s.serviceLock == Some(u))
            && (s'.brokerLock == Some(u) <==> s.brokerLock == Some(u))
  {
    hide LookUp, Unlock, HasKey;
    var pc := s.threads[t].pc;
    if pc.Idle? {
    } else if pc.Working? {
    } else if pc.InSection? {
    } else if pc.Calling? || pc.SectionCall? || pc.Asking? {
    }
  }

  lemma GlobalStepOther(s: System, t: nat, u: nat)
    requires t < |s.threads| && Recorded(s, t) && u < |s.threads| && u != t && Recorded(s, u)
    requires var pc := s.threads[t].pc; !pc.InMap? && !pc.Waiting? && !pc.Unlocking?
    ensures |Step(s, t).threads| == |s.threads| && Recorded(Step(s, t), u)
  {
    hide Step;
    GlobalStepShape(s, t);
    GlobalStepLeaves(s, t, u);
  }

  lemma StepOk(s: System, t: nat)
    requires Inv(s) && t < |s.threads|
    ensures Inv(Step(s, t))
  {
    hide Inv, LookUp, Unlock, Recorded;
    var pc := s.threads[t].pc;
    if pc.InMap? {
      LookUpOk(s, t, pc.task);
    } else if pc.Waiting? {
      LockMutexOk(s, t);
    } else if pc.Unlocking? {
      UnlockOk(s, t, pc.task);
    } else {
      GlobalStepOk(s, t);
    }
  }

  lemma {:induction false} Reachable(s: System, schedule: seq<nat>)
    requires Inv(s)
    ensures Inv(After(s, schedule))
    decreases |schedule|
  {
    hide Inv, Step;
    if schedule != [] {
      if schedule[0] < |s.threads| {
        StepOk(s, schedule[0]);
        Reachable(Step(s, schedule[0]), schedule[1..]);
      } else {
        Reachable(s, schedule[1..]);
      }
    }
  }

  // ---------------------------------------------------------------- what the protocol gives

  /** In every reachable state at most one thread is in the critical section of a key, and none has panicked. */
  lemma MutualExclusion(s: System, schedule: seq<nat>, t: nat, u: nat)
    requires Initial(s)
    requires var s' := After(s, schedule);
             && t < |s'.threads| && u < |s'.threads|
             && HasKey(s'.threads[t].pc) && HasKey(s'.threads[u].pc)
             && s'.threads[t].pc.task.key == s'.threads[u].pc.task.key
    ensures t == u
  {
    var s' := After(s, schedule);
    InitialOk(s);
    Reachable(s, schedule);
    assert Recorded(s', t) && Recorded(s', u);
    var id := s'.keys[s'.threads[t].pc.task.key];
    assert s'.mutexes[id] == Some(t) && s'.mutexes[id] == Some(u);
  }

  lemma NobodyPanics(s: System, schedule: seq<nat>, t: nat)
    requires Initial(s) && t < |After(s, schedule).threads|
    ensures !After(s, schedule).threads[t].pc.Panicked?
  {
    InitialOk(s);
    Reachable(s, schedule);
    assert Recorded(After(s, schedule), t);
  }

  /** The mutex of a key is never replaced. */
  lemma {:induction false} MutexNeverReplaced(s: System, schedule: seq<nat>, key: string)
    requires key in s.keys
    ensures key in After(s, schedule).keys && After(s, schedule).keys[key] == s.keys[key]
    decreases |schedule|
  {
    if schedule != [] {
      MutexNeverReplaced(if schedule[0] < |s.threads| then Step(s, schedule[0]) else s, schedule[1..], key);
    }
  }

  predicate Finished(thread: Thread)
  {
    thread.pc.Idle? && thread.todo == []
  }

  predicate CanMove(s: System, t: nat)
    requires t < |s.threads|
  {
    Step(s, t) != s
  }

  /** Whoever has the innermost lock that is taken can go on. */
  lemma HolderMoves(s: System, t: nat)
    requires t < |s.threads| && Recorded(s, t)
    requires || s.brokerLock == Some(t)
             || (s.brokerLock == None && s.serviceLock == Some(t))
             || s.mapLock == Some(t)
    ensures CanMove(s, t)
  {
  }

  /** With the global locks free, a thread waits for nothing but a mutex, whose holder can go on. */
  lemma FreeThreadMoves(s: System, t: nat) returns (u: nat)
    requires Inv(s) && t < |s.threads| && !Finished(s.threads[t])
    requires s.brokerLock == None && s.serviceLock == None && s.mapLock == None
    ensures u < |s.threads| && CanMove(s, u)
  {
    var pc := s.threads[t].pc;
    assert Recorded(s, t);
    u := if pc.Waiting? && s.mutexes[pc.id].Some? then s.mutexes[pc.id].value else t;
    assert Recorded(s, u);
    assert s.threads[u].pc != Step(s, u).threads[u].pc;
  }

  /** Unless all threads are finished, one of them can move. */
  lemma NoDeadlock(s: System)
    requires Inv(s) && exists t :: 0 <= t < |s.threads| && !Finished(s.threads[t])
    ensures exists t :: 0 <= t < |s.threads| && CanMove(s, t)
  {
    hide CanMove, Recorded, Finished;
    if s.brokerLock.Some? {
      HolderMoves(s, s.brokerLock.value);
    } else if s.serviceLock.Some? {
      HolderMoves(s, s.serviceLock.value);
    } else if s.mapLock.Some? {
      HolderMoves(s, s.mapLock.value);
    } else {
      var t :| 0 <= t < |s.threads| && !Finished(s.threads[t]);
      var u := FreeThreadMoves(s, t);
    }
  }

  // ---------------------------------------------------------------- every run of the protocol ends

  function PartsEffort(parts: seq<Part>): nat
  {
    if parts == [] then 0
    else (if parts[0].Call? then 2 else 2 + 2 * parts[0].calls) + PartsEffort(parts[1..])
  }

  function TodoEffort(todo: seq<Job>): nat
  {
    if todo == [] then 0
    else (if todo[0].Bare? then 2 else 7 + PartsEffort(todo[0].task.parts)) + TodoEffort(todo[1..])
  }

  /** The steps that a thread still has to make. */
  function Effort(thread: Thread): nat
  {
    TodoEffort(thread.todo) +
    match thread.pc
    case Idle => 0
    case InMap(task) => 6 + PartsEffort(task.parts)
    case Found(task, _) => 5 + PartsEffort(task.parts)
    case Waiting(task, _) => 4 + PartsEffort(task.parts)
    case Working(_, parts) => 3 + PartsEffort(parts)
    case Calling(_, parts) => 4 + PartsEffort(parts)
    case InSection(_, parts, calls) => 4 + 2 * calls + PartsEffort(parts)
    case SectionCall(_, parts, calls) => 5 + 2 * calls + PartsEffort(parts)
    case Unlocking(_) => 2
    case Unlocked(_) => 1
    case Asking => 1
    case Panicked => 0
  }

  function TotalEffort(threads: seq<Thread>): nat
  {
    if threads == [] then 0 else Effort(threads[0]) + TotalEffort(threads[1..])
  }

  lemma {:induction false} EffortOfUpdate(threads: seq<Thread>, t: nat, thread: Thread)
    requires t < |threads|
    ensures TotalEffort(threads[t := thread]) + Effort(threads[t]) == TotalEffort(threads) + Effort(thread)
  {
    if t > 0 {
      EffortOfUpdate(threads[1..], t - 1, thread);
      assert threads[t := thread][1..] == threads[1..][t - 1 := thread];
    }
  }

  /** What looking up and unlocking the key of a thread do to the threads. */
  lemma KeyStepThreads(s: System, t: nat, task: Task)
    requires t < |s.threads|
    ensures exists id :: LookUp(s, t, task).threads == At(s, t, Found(task, id)).threads
    ensures || Unlock(s, t, task).threads == At(s, t, Unlocked(task)).threads
            || Unlock(s, t, task).threads == At(s, t, Panicked).threads
  {
    if task.key in s.keys {
      assert LookUp(s, t, task).threads == At(s, t, Found(task, s.keys[task.key])).threads;
    } else {
      assert LookUp(s, t, task).threads == At(s, t, Found(task, |s.mutexes|)).threads;
    }
  }

  /** Only the thread that moves changes. */
  lemma StepChangesOne(s: System, t: nat)
    requires t < |s.threads|
    ensures |Step(s, t).threads| == |s.threads|
    ensures Step(s, t).threads == s.threads[t := Step(s, t).threads[t]]
  {
    hide LookUp, Unlock;
    var pc := s.threads[t].pc;
    if pc.InMap? || pc.Unlocking? {
      KeyStepThreads(s, t, pc.task);
    }
  }

  /** A move takes the thread one step on. */
  lemma ThreadEffort(s: System, t: nat)
    requires t < |s.threads| && CanMove(s, t) && Inv(s)
    ensures Effort(Step(s, t).threads[t]) + 1 == Effort(s.threads[t])
  {
    hide LookUp, Unlock, Inv;
    var pc := s.threads[t].pc;
    if pc.InMap? || pc.Unlocking? {
      KeyStepThreads(s, t, pc.task);
      if pc.Unlocking? {
        UnlockOk(s, t, pc.task);
      }
    }
  }

  lemma MoveTakesEffort(s: System, t: nat)
    requires t < |s.threads| && CanMove(s, t) && Inv(s)
    ensures TotalEffort(Step(s, t).threads) + 1 == TotalEffort(s.threads)
  {
    hide Step, Effort, Inv;
    StepChangesOne(s, t);
    ThreadEffort(s, t);
    EffortOfUpdate(s.threads, t, Step(s, t).threads[t]);
  }

  /** Every step of the schedule is a move. */
  predicate AllMoves(s: System, schedule: seq<nat>)
    decreases |schedule|
  {
    schedule == [] ||
    (schedule[0] < |s.threads| && CanMove(s, schedule[0]) && AllMoves(Step(s, schedule[0]), schedule[1..]))
  }

  /** The moves of all threads together, and those still to come, are those that their tasks take: no schedule has more of
      them, and none that finishes the tasks has less. */
  lemma {:induction false} MovesAreExact(s: System, schedule: seq<nat>)
    requires Inv(s) && AllMoves(s, schedule)
    ensures |schedule| + TotalEffort(After(s, schedule).threads) == TotalEffort(s.threads)
    decreases |schedule|
  {
    hide Inv, Step, CanMove;
    if schedule != [] {
      StepOk(s, schedule[0]);
      MoveTakesEffort(s, schedule[0]);
      MovesAreExact(Step(s, schedule[0]), schedule[1..]);
    }
  }

  /** A schedule that leaves no thread a move has finished all tasks. */
  lemma StuckMeansFinished(s: System, schedule: seq<nat>)
    requires Initial(s)
    requires var s' := After(s, schedule); forall t :: 0 <= t < |s'.threads| ==> !CanMove(s', t)
    ensures var s' := After(s, schedule); forall t :: 0 <= t < |s'.threads| ==> Finished(s'.threads[t])
  {
    hide Inv, CanMove, Finished;
    var s' := After(s, schedule);
    InitialOk(s);
    Reachable(s, schedule);
    if exists t :: 0 <= t < |s'.threads| && !Finished(s'.threads[t]) {
      NoDeadlock(s');
    }
  }
}
