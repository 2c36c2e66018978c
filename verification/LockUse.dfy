/** Which locks a thread holds, one after the other: those its tasks ask for, and nothing is left out or done twice. */
module LockUse {
  import opened Results
  import opened Locks

  /** The keys whose mutex a thread has, and whether it has the service lock and the broker lock. */
  datatype Holding = Holding(keys: set<string>, service: bool, broker: bool)

  const NOTHING := Holding({}, false, false)

  function HeldBy(s: System, t: nat): Holding
  {
    var keys := set key | key in s.keys && s.keys[key] < |s.mutexes| && s.mutexes[s.keys[key]] == Some(t);
    Holding(keys, s.serviceLock == Some(t), s.brokerLock == Some(t))
  }

  /** What a thread holds, each time that changes. */
  function History(s: System, t: nat, schedule: seq<nat>): seq<Holding>
    decreases |schedule|
  {
    if schedule == [] then []
    else
      var s' := if schedule[0] < |s.threads| then Step(s, schedule[0]) else s;
      Change(s, s', t) + History(s', t, schedule[1..])
  }

  function Change(s: System, s': System, t: nat): seq<Holding>
  {
    if HeldBy(s', t) == HeldBy(s, t) then [] else [HeldBy(s', t)]
  }

  // ---------------------------------------------------------------- what the tasks ask for

  /** Under the service lock, each call takes the broker lock and gives it back. */
  function SectionUse(key: string, calls: nat): seq<Holding>
  {
    if calls == 0 then []
    else [Holding({key}, true, true), Holding({key}, true, false)] + SectionUse(key, calls - 1)
  }

  function PartsUse(key: string, parts: seq<Part>): seq<Holding>
  {
    if parts == [] then []
    else
      (match parts[0]
       case Call => [Holding({key}, false, true)]
       case Section(calls) => [Holding({key}, true, false)] + SectionUse(key, calls)) +
      [Holding({key}, false, false)] + PartsUse(key, parts[1..])
  }

  /** A task is done under its key, and a bare call under the broker lock alone. */
  function JobUse(job: Job): seq<Holding>
  {
    match job
    case Keyed(task) => [Holding({task.key}, false, false)] + PartsUse(task.key, task.parts) + [NOTHING]
    case Bare => [Holding({}, false, true), NOTHING]
  }

  function TodoUse(todo: seq<Job>): seq<Holding>
  {
    if todo == [] then [] else JobUse(todo[0]) + TodoUse(todo[1..])
  }

  /** What a thread is still to hold. */
  function Coming(thread: Thread): seq<Holding>
  {
    PcUse(thread.pc) + TodoUse(thread.todo)
  }

  function PcUse(pc: Pc): seq<Holding>
  {
    match pc
    case Idle => []
    case InMap(task) => JobUse(Keyed(task))
    case Found(task, _) => JobUse(Keyed(task))
    case Waiting(task, _) => JobUse(Keyed(task))
    case Working(task, parts) => PartsUse(task.key, parts) + [NOTHING]
    case Calling(task, parts) => [Holding({task.key}, false, false)] + PartsUse(task.key, parts) + [NOTHING]
    case InSection(task, parts, calls) =>
      SectionUse(task.key, calls) + [Holding({task.key}, false, false)] + PartsUse(task.key, parts) + [NOTHING]
    case SectionCall(task, parts, calls) =>
      [Holding({task.key}, true, false)] + SectionUse(task.key, calls) + [Holding({task.key}, false, false)] +
      PartsUse(task.key, parts) + [NOTHING]
    case Unlocking(_) => [NOTHING]
    case Unlocked(_) => []
    case Asking => [NOTHING]
    case Panicked => []
  }

  // ---------------------------------------------------------------- every schedule

  function HeldAt(pc: Pc): Holding
  {
    Holding(if HasKey(pc) then {pc.task.key} else {}, HasService(pc), HasBroker(pc))
  }

  lemma HeldExact(s: System, t: nat)
    requires Inv(s) && t < |s.threads|
    ensures HeldBy(s, t) == HeldAt(s.threads[t].pc)
  {
    assert Recorded(s, t);
  }

  /** What changes hands when a thread goes from one place to another. */
  function Taken(pc: Pc, pc': Pc): seq<Holding>
  {
    if HeldAt(pc') == HeldAt(pc) then [] else [HeldAt(pc')]
  }

  lemma WorkingStep(s: System, t: nat)
    requires t < |s.threads| && s.threads[t].pc.Working?
    ensures var pc, pc' := s.threads[t].pc, Step(s, t).threads[t].pc;
            Taken(pc, pc') + PcUse(pc') == PcUse(pc) && Step(s, t).threads[t].todo == s.threads[t].todo
  {
    hide LookUp, Unlock, PcUse;
    var pc, pc' := s.threads[t].pc, Step(s, t).threads[t].pc;
    if pc' == pc {
    } else if pc.parts == [] {
      assert pc' == Unlocking(pc.task);
      EmptyWork(pc.task);
    } else if pc.parts[0].Call? {
      assert pc' == Calling(pc.task, pc.parts[1..]);
      CallWork(pc.task, pc.parts);
    } else {
      assert pc' == InSection(pc.task, pc.parts[1..], pc.parts[0].calls);
      SectionWork(pc.task, pc.parts);
    }
  }

  lemma EmptyWork(task: Task)
    ensures [] + PcUse(Unlocking(task)) == PcUse(Working(task, []))
  {
  }

  lemma CallWork(task: Task, parts: seq<Part>)
    requires parts != [] && parts[0].Call?
    ensures [Holding({task.key}, false, true)] + PcUse(Calling(task, parts[1..])) == PcUse(Working(task, parts))
  {
  }

  lemma SectionWork(task: Task, parts: seq<Part>)
    requires parts != [] && parts[0].Section?
    ensures [Holding({task.key}, true, false)] + PcUse(InSection(task, parts[1..], parts[0].calls)) ==
            PcUse(Working(task, parts))
  {
  }

  lemma SectionStep(s: System, t: nat)
    requires t < |s.threads| && (s.threads[t].pc.InSection? || s.threads[t].pc.SectionCall?)
    ensures var pc, pc' := s.threads[t].pc, Step(s, t).threads[t].pc;
            Taken(pc, pc') + PcUse(pc') == PcUse(pc) && Step(s, t).threads[t].todo == s.threads[t].todo
  {
    hide LookUp, Unlock, PartsUse;
  }

  lemma OtherPcStep(s: System, t: nat)
    requires t < |s.threads| && Inv(s)
    requires var pc := s.threads[t].pc; !pc.Idle? && !pc.Working? && !pc.InSection? && !pc.SectionCall?
    ensures var pc, pc' := s.threads[t].pc, Step(s, t).threads[t].pc;
            Taken(pc, pc') + PcUse(pc') == PcUse(pc) && Step(s, t).threads[t].todo == s.threads[t].todo
  {
    hide LookUp, Unlock, Inv, PartsUse;
    var pc := s.threads[t].pc;
    if pc.InMap? || pc.Unlocking? {
      KeyStepThreads(s, t, pc.task);
      if pc.Unlocking? {
        UnlockOk(s, t, pc.task);
      }
    }
  }

  lemma IdleStep(s: System, t: nat)
    requires t < |s.threads| && s.threads[t].pc.Idle?
    ensures var pc, pc' := s.threads[t].pc, Step(s, t).threads[t].pc;
            Taken(pc, pc') + Coming(Step(s, t).threads[t]) == Coming(s.threads[t])
  {
    hide LookUp, Unlock, PartsUse;
  }

  lemma PcStep(s: System, t: nat)
    requires t < |s.threads| && Inv(s)
    ensures Taken(s.threads[t].pc, Step(s, t).threads[t].pc) + Coming(Step(s, t).threads[t]) == Coming(s.threads[t])
  {
    hide Step, Inv, PcUse, TodoUse, Taken;
    var pc, pc' := s.threads[t].pc, Step(s, t).threads[t].pc;
    if pc.Idle? {
      IdleStep(s, t);
    } else {
      if pc.Working? {
        WorkingStep(s, t);
      } else if pc.InSection? || pc.SectionCall? {
        SectionStep(s, t);
      } else {
        OtherPcStep(s, t);
      }
      var todo := TodoUse(s.threads[t].todo);
      assert (Taken(pc, pc') + PcUse(pc')) + todo == Taken(pc, pc') + (PcUse(pc') + todo);
    }
  }

  lemma OtherStep(s: System, t: nat, u: nat)
    requires Inv(s) && t < |s.threads| && u < |s.threads| && u != t
    ensures Step(s, u).threads[t] == s.threads[t]
  {
    hide Step, Inv;
    StepChangesOne(s, u);
  }

  /** In every schedule a thread holds, one after the other, exactly the locks that its tasks ask for: every task its key,
      every call the broker lock under that key, every section the service lock and under it its calls. */
  lemma {:induction false} UseIsExact(s: System, t: nat, schedule: seq<nat>)
    requires Inv(s) && t < |s.threads|
    ensures |After(s, schedule).threads| == |s.threads|
    ensures History(s, t, schedule) + Coming(After(s, schedule).threads[t]) == Coming(s.threads[t])
    decreases |schedule|
  {
    hide Inv, Step, HeldBy, HeldAt, Coming;
    if schedule == [] {
      assert [] + Coming(s.threads[t]) == Coming(s.threads[t]);
    } else {
      var u := schedule[0];
      var s' := if u < |s.threads| then Step(s, u) else s;
      if u < |s.threads| {
        StepOk(s, u);
        HeldExact(s, t);
        HeldExact(s', t);
        if u == t {
          PcStep(s, t);
        } else {
          OtherStep(s, t, u);
        }
      }
      UseIsExact(s', t, schedule[1..]);
      var rest := History(s', t, schedule[1..]);
      assert (Change(s, s', t) + rest) + Coming(After(s', schedule[1..]).threads[t]) ==
             Change(s, s', t) + (rest + Coming(After(s', schedule[1..]).threads[t]));
    }
  }

  /** A thread that has finished has held what its tasks asked for, in their order. */
  lemma FinishedHasWorked(s: System, t: nat, schedule: seq<nat>)
    requires Initial(s) && t < |s.threads|
    requires var s' := After(s, schedule); t < |s'.threads| && Finished(s'.threads[t])
    ensures History(s, t, schedule) == TodoUse(s.threads[t].todo)
  {
    hide Inv;
    InitialOk(s);
    UseIsExact(s, t, schedule);
    assert [] + TodoUse(s.threads[t].todo) == TodoUse(s.threads[t].todo);
  }
}
