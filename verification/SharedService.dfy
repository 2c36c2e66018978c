/** Runs that attach and detach servers in parallel, one broker call at a time, under the service lock. */
module SharedService {
  import opened Results
  import opened Text
  import opened Tags
  import opened Resources
  import opened BrokerState
  import opened Ownership
  import opened Steps
  import opened Attachment

  datatype Op = Attach(id: string) | Detach(id: string)

  /** Where a run is: before or after the locked section, or between two of its broker calls. */
  datatype Pc =
    | Outside
    | Locked(op: Op)                        // about to look for the service
    | Creating(op: Op)                      // found none, about to create one
    | Holding(op: Op, service: LbService)   // has a copy of the service, about to write it back
    | Leaving(op: Op, ok: bool)             // about to unlock

  datatype Run = Run(todo: seq<Op>, pc: Pc)

  datatype Shared = Shared(services: seq<LbService>, cached: string, nextId: nat, holder: Option<nat>,
                           runs: seq<Run>, attached: set<string>)

  /** `tags` are those of a created service and `foreign` the server ids of others; `useLock` and `forget` are what the
      code does and does not do. */
  datatype Mode = Mode(cfg: Config, tags: seq<Tag>, foreign: set<string>, useLock: bool, forget: bool)

  /** Which run moves, and whether its broker call fails. */
  datatype Choice = Choice(run: nat, fault: bool)

  function At(s: Shared, t: nat, pc: Pc): Shared
    requires t < |s.runs|
  {
    s.(runs := s.runs[t := s.runs[t].(pc := pc)])
  }

  function Look(m: Mode, s: Shared, t: nat, op: Op): Shared
    requires t < |s.runs|
  {
    match op
    case Attach(_) =>
      (match ServiceFor(m.cfg, s.services, s.cached)
       case Err(_) => At(s, t, Leaving(op, false))
       case Ok(None) => At(s, t, if m.cfg.managed then Creating(op) else Leaving(op, false))
       case Ok(Some(svc)) => At(s, t, Holding(op, svc)))
    case Detach(id) =>
      match FirstService(m.cfg, s.services, Some(id))
      case None => At(s, t, Leaving(op, true)).(attached := s.attached - {id})
      case Some(svc) => At(s, t, Holding(op, svc))
  }

  function Create(m: Mode, s: Shared, t: nat, op: Op): Shared
    requires t < |s.runs|
  {
    var svc := Resource(SERVICE_ID + Format(s.nextId), m.tags, LbServiceSpec([], Some(m.cfg.routerId)));
    At(s, t, Holding(op, svc)).(services := s.services + [svc], nextId := s.nextId + 1, cached := svc.id)
  }

  predicate Deletes(m: Mode, op: Op, svc: LbService)
  {
    op.Detach? && DeletesService(m.cfg, svc, op.id)
  }

  function Write(m: Mode, s: Shared, t: nat, op: Op, svc: LbService): Shared
    requires t < |s.runs|
  {
    var done := At(s, t, Leaving(op, true));
    if !Deletes(m, op, svc) && !HasServiceId(s.services, svc.id) then At(s, t, Leaving(op, false))
    else match op
      case Attach(id) =>
        done.(services := WithServer(s.services, svc, id), attached := s.attached + {id})
      case Detach(id) =>
        done.(services := WithoutServer(m.cfg, s.services, svc, id), attached := s.attached - {id},
              cached := if Deletes(m, op, svc) && m.forget && s.cached == svc.id then "" else s.cached)
  }

  predicate HasServiceId(services: seq<LbService>, id: string)
    ensures HasServiceId(services, id) <==> HasId(services, id)
  {
    Find(services, id).Some?
  }

  /** One step of one run; a run that waits for the lock stays where it is. */
  function Step(m: Mode, s: Shared, c: Choice): Shared
  {
    if c.run >= |s.runs| then s
    else
      var t, run := c.run, s.runs[c.run];
      match run.pc
      case Outside =>
        if run.todo == [] || (m.useLock && s.holder != None) then s
        else s.(holder := Some(t), runs := s.runs[t := Run(run.todo[1..], Locked(run.todo[0]))])
      case Locked(op) => if c.fault then At(s, t, Leaving(op, false)) else Look(m, s, t, op)
      case Creating(op) => if c.fault then At(s, t, Leaving(op, false)) else Create(m, s, t, op)
      case Holding(op, svc) => if c.fault then At(s, t, Leaving(op, false)) else Write(m, s, t, op, svc)
      case Leaving(_, _) => At(s, t, Outside).(holder := None)
  }

  /** The state after a schedule of steps. */
  function After(m: Mode, s: Shared, choices: seq<Choice>): Shared
    decreases |choices|
  {
    if choices == [] then s else After(m, Step(m, s, choices[0]), choices[1..])
  }

  // ---------------------------------------------------------------- what every step keeps

  /** The servers a run is still to attach. */
  function Coming(run: Run): seq<string>
  {
    (if !run.pc.Outside? && !run.pc.Leaving? && run.pc.op.Attach? then [run.pc.op.id] else []) + ToAttach(run.todo)
  }

  function ToAttach(todo: seq<Op>): seq<string>
  {
    if todo == [] then []
    else (if todo[0].Attach? then [todo[0].id] else []) + ToAttach(todo[1..])
  }

  /** A server id is attached once: ids are fresh when servers are created. */
  ghost predicate Planned(s: Shared)
  {
    && (forall t :: 0 <= t < |s.runs| ==> NoDuplicates(Coming(s.runs[t])))
    && (forall t, u, id :: 0 <= t < u < |s.runs| && id in Coming(s.runs[t]) ==> id !in Coming(s.runs[u]))
    && (forall t, id :: 0 <= t < |s.runs| && id in Coming(s.runs[t]) ==> id !in s.attached)
  }

  ghost predicate Locking(s: Shared)
  {
    forall t :: 0 <= t < |s.runs| ==> (s.holder == Some(t) <==> !s.runs[t].pc.Outside?)
  }

  /** The copy a run holds is the service as the broker has it. */
  ghost predicate CopyCurrent(m: Mode, s: Shared, pc: Pc)
  {
    && (pc.Holding? ==>
         && pc.service in s.services && Discoverable(m.cfg, pc.service)
         && (pc.op.Detach? ==> pc.op.id in pc.service.spec.virtualServerIds))
    && (pc.Creating? ==> m.cfg.managed && pc.op.Attach? && forall svc :: svc in s.services ==> !Discoverable(m.cfg, svc))
  }

  ghost predicate Ours(m: Mode, svc: LbService)
  {
    exists id :: id in svc.spec.virtualServerIds && id !in m.foreign
  }

  /** Runs work on our servers only. */
  ghost predicate Own(m: Mode, run: Run)
  {
    (forall op :: op in run.todo ==> op.id !in m.foreign) && (!run.pc.Outside? ==> run.pc.op.id !in m.foreign)
  }

  /** The attached ids are exactly those added and not removed, each once, where a detach looks for them. */
  ghost predicate Exact(m: Mode, s: Shared)
  {
    && NoDuplicates(AllIds(s.services))
    && (forall id :: id in AllIds(s.services) <==> id in s.attached)
    && (forall svc :: svc in s.services && Ours(m, svc) ==> Discoverable(m.cfg, svc))
  }

  ghost predicate ServicesOk(m: Mode, s: Shared)
  {
    && UniqueIds(s.services) && Fresh(SERVICE_ID, s.services, s.nextId)
    && CachedOk(m.cfg, s.services, s.nextId, s.cached) && Exact(m, s)
  }

  ghost predicate RunsOk(m: Mode, s: Shared)
  {
    && Locking(s) && Planned(s)
    && forall t :: 0 <= t < |s.runs| ==> Own(m, s.runs[t]) && CopyCurrent(m, s, s.runs[t].pc)
  }

  ghost predicate Inv(m: Mode, s: Shared)
  {
    ServicesOk(m, s) && RunsOk(m, s)
  }

  /** A controller that has not attached anything may start from no service, whatever its runs are to do. */
  lemma InitialOk(m: Mode, s: Shared)
    requires s.services == [] && s.attached == {} && s.holder == None && (m.cfg.managed ==> s.cached == "")
    requires forall t :: 0 <= t < |s.runs| ==>
               s.runs[t].pc.Outside? && Own(m, s.runs[t]) && NoDuplicates(ToAttach(s.runs[t].todo))
    requires forall t, u, id :: 0 <= t < u < |s.runs| && id in ToAttach(s.runs[t].todo) ==> id !in ToAttach(s.runs[u].todo)
    ensures Inv(m, s)
  {
    hide ToAttach;
    assert forall todo: seq<string> :: [] + todo == todo;
  }

  /** Created services carry our tags, and a detach looks wherever an attach may have put a server. */
  ghost predicate Sound(m: Mode)
  {
    m.useLock && Covered(m.cfg) && CheckTags(m.tags, ClusterQuery(m.cfg))
  }

  // ---------------------------------------------------------------- the plan

  /** A run goes on with the same servers to come, or with one less, which may be attached by now. */
  lemma PlanGoesOn(s: Shared, s': Shared, t: nat)
    requires Planned(s) && t < |s.runs| && |s'.runs| == |s.runs|
    requires forall u :: 0 <= u < |s.runs| && u != t ==> s'.runs[u] == s.runs[u]
    requires var coming, coming' := Coming(s.runs[t]), Coming(s'.runs[t]);
             || (coming' == coming && s'.attached <= s.attached)
             || (coming != [] && coming' == coming[1..] && s'.attached <= s.attached + {coming[0]})
    ensures Planned(s')
  {
    hide Coming;
    var coming, coming' := Coming(s.runs[t]), Coming(s'.runs[t]);
    assert forall id :: id in coming' ==> id in coming;
    assert coming != [] ==> coming[0] in coming;
    forall u, id | 0 <= u < |s.runs| && id in Coming(s'.runs[u]) ensures id !in s'.attached {
      assert id in Coming(s.runs[u]) && id !in s.attached;
    }
  }

  // ---------------------------------------------------------------- the steps

  lemma AcquireOk(m: Mode, s: Shared, t: nat)
    requires Sound(m) && Inv(m, s) && t < |s.runs| && s.runs[t].pc.Outside?
    ensures Inv(m, Step(m, s, Choice(t, false))) && Inv(m, Step(m, s, Choice(t, true)))
  {
    hide ServicesOk, NoDuplicates;
    var run := s.runs[t];
    var s' := Step(m, s, Choice(t, false));
    if run.todo != [] && s.holder == None {
      assert run.todo == [run.todo[0]] + run.todo[1..];
      PlanGoesOn(s, s', t);
    }
    assert ServicesOk(m, s') by { RunsDoNotMatter(m, s, s'); }
  }

  lemma RunsDoNotMatter(m: Mode, s: Shared, s': Shared)
    requires ServicesOk(m, s) && s'.services == s.services && s'.cached == s.cached && s'.nextId == s.nextId
    requires s'.attached == s.attached
    ensures ServicesOk(m, s')
  {
  }

  /** Unlocking, or giving up after a failed call. */
  lemma LeaveOk(m: Mode, s: Shared, t: nat, op: Op, done: bool)
    requires Sound(m) && Inv(m, s) && t < |s.runs| && !s.runs[t].pc.Outside? && s.runs[t].pc.op == op
    ensures !s.runs[t].pc.Leaving? ==> Inv(m, At(s, t, Leaving(op, done)))
    ensures s.runs[t].pc.Leaving? ==> Inv(m, At(s, t, Outside).(holder := None))
  {
    hide ServicesOk, NoDuplicates;
    var left, out := At(s, t, Leaving(op, done)), At(s, t, Outside).(holder := None);
    RunsDoNotMatter(m, s, left);
    RunsDoNotMatter(m, s, out);
    if s.runs[t].pc.Leaving? {
      PlanGoesOn(s, out, t);
    } else {
      PlanGoesOn(s, left, t);
    }
  }

  /** The service found for an attach is one a detach finds again. */
  lemma FoundIsDiscoverable(m: Mode, s: Shared)
    requires Sound(m) && ServicesOk(m, s)
    ensures var found := ServiceFor(m.cfg, s.services, s.cached);
            && (found.Ok? && found.value.Some? ==> found.value.value in s.services && Discoverable(m.cfg, found.value.value))
            && (found == Ok(None) ==> forall svc :: svc in s.services ==> !Discoverable(m.cfg, svc))
  {
    var found := ServiceFor(m.cfg, s.services, s.cached);
    if found == Ok(None) {
      forall svc | svc in s.services ensures !Discoverable(m.cfg, svc) {
        assert !Wanted(m.cfg, svc, None);
      }
    }
  }

  /** A detach that finds nothing has nothing to detach. */
  lemma NotFoundNotAttached(m: Mode, s: Shared, id: string)
    requires Sound(m) && ServicesOk(m, s) && id !in m.foreign
    requires FirstService(m.cfg, s.services, Some(id)).None?
    ensures id !in s.attached
  {
    if id in s.attached {
      AttachedSomewhere(s.services, id);
      var svc :| svc in s.services && id in svc.spec.virtualServerIds;
      assert Ours(m, svc);
      assert false;
    }
  }

  lemma LookOk(m: Mode, s: Shared, t: nat, op: Op)
    requires Sound(m) && Inv(m, s) && t < |s.runs| && s.runs[t].pc == Locked(op)
    ensures Inv(m, Look(m, s, t, op))
  {
    hide ServicesOk, NoDuplicates, Discoverable, ServiceFor;
    var s' := Look(m, s, t, op);
    FoundIsDiscoverable(m, s);
    if op.Detach? {
      var found := FirstService(m.cfg, s.services, Some(op.id));
      if found.None? {
        NotFoundNotAttached(m, s, op.id);
        assert s.attached - {op.id} == s.attached;
      } else {
        assert Wanted(m.cfg, found.value, Some(op.id));
      }
    }
    RunsDoNotMatter(m, s, s');
    if s'.runs[t].pc.Leaving? {
      LeaveOk(m, s, t, op, s'.runs[t].pc.ok);
      assert s' == At(s, t, Leaving(op, s'.runs[t].pc.ok));
    } else {
      PlanGoesOn(s, s', t);
    }
  }

  lemma CreateOk(m: Mode, s: Shared, t: nat, op: Op)
    requires Sound(m) && Inv(m, s) && t < |s.runs| && s.runs[t].pc == Creating(op)
    ensures Inv(m, Create(m, s, t, op))
  {
    hide NoDuplicates, Fresh, UniqueIds, CheckTags;
    var s' := Create(m, s, t, op);
    var svc := Resource(SERVICE_ID + Format(s.nextId), m.tags, LbServiceSpec([], Some(m.cfg.routerId)));
    FreshAppend(SERVICE_ID, s.services, s.nextId, svc);
    AllIdsAround(s.services, svc, []);
    assert s.services + [svc] + [] == s'.services;
    assert AllIds(s'.services) == AllIds(s.services);
    assert svc in s'.services;
    assert CachedOk(m.cfg, s'.services, s'.nextId, s'.cached) by {
      CreatedIsIssued(s'.services, s'.nextId, svc);
      forall x | x in s'.services && x.id == svc.id ensures x == svc {
        SameId(s'.services, x, svc);
      }
    }
    PlanGoesOn(s, s', t);
  }

  lemma CreatedIsIssued(services: seq<LbService>, nextId: nat, svc: LbService)
    requires Fresh(SERVICE_ID, services, nextId) && svc in services
    ensures Issued(nextId, svc.id)
  {
  }

  /** Writing back a list of ids, with one added or one taken out. */
  lemma ReplaceIds(m: Mode, s: Shared, svc: LbService, ids: seq<string>, attached: set<string>)
    requires ServicesOk(m, s) && svc in s.services && Discoverable(m.cfg, svc)
    requires var services := Replace(s.services, WithIds(svc, ids));
             NoDuplicates(AllIds(services)) && forall id :: id in AllIds(services) <==> id in attached
    ensures ServicesOk(m, s.(services := Replace(s.services, WithIds(svc, ids)), attached := attached))
  {
    hide NoDuplicates, CheckTags, Fresh, UniqueIds, Replace, AllIds;
    var x := WithIds(svc, ids);
    assert HasId(s.services, x.id);
    FreshReplace(SERVICE_ID, s.services, s.nextId, x);
    ReplaceMembers(s.services, x);
    assert Discoverable(m.cfg, x);
  }

  lemma AttachServicesOk(m: Mode, s: Shared, svc: LbService, id: string)
    requires ServicesOk(m, s) && svc in s.services && Discoverable(m.cfg, svc) && id !in s.attached
    ensures HasId(s.services, svc.id)
    ensures ServicesOk(m, s.(services := Replace(s.services, WithIds(svc, svc.spec.virtualServerIds + [id])),
                             attached := s.attached + {id}))
  {
    hide Discoverable, Fresh, CachedOk, Ours;
    var ids := svc.spec.virtualServerIds;
    FindUnique(s.services, svc);
    var a, b := SplitAt(s.services, WithIds(svc, ids + [id]));
    AppendSplice(a, ids, b, id);
    ReplaceIds(m, s, svc, ids + [id], s.attached + {id});
  }

  lemma DetachServicesOk(m: Mode, s: Shared, svc: LbService, id: string)
    requires ServicesOk(m, s) && svc in s.services && Discoverable(m.cfg, svc) && id in svc.spec.virtualServerIds
    ensures HasId(s.services, svc.id)
    ensures ServicesOk(m, s.(services := Replace(s.services, WithIds(svc, Without(svc.spec.virtualServerIds, id))),
                             attached := s.attached - {id}))
  {
    hide Discoverable, Fresh, CachedOk, Ours;
    var ids := svc.spec.virtualServerIds;
    FindUnique(s.services, svc);
    var a, b := SplitAt(s.services, WithIds(svc, Without(ids, id)));
    WithoutSplice(a, ids, b, id);
    ReplaceIds(m, s, svc, Without(ids, id), s.attached - {id});
  }

  lemma DeleteServicesOk(m: Mode, s: Shared, svc: LbService, id: string, cached: string)
    requires ServicesOk(m, s) && svc in s.services && id in svc.spec.virtualServerIds
    requires Without(svc.spec.virtualServerIds, id) == [] && (cached == s.cached || cached == "")
    ensures ServicesOk(m, s.(services := Remove(s.services, svc.id), attached := s.attached - {id}, cached := cached))
  {
    hide Discoverable, Fresh;
    var ids := svc.spec.virtualServerIds;
    FindUnique(s.services, svc);
    var a, b := SplitAt(s.services, svc);
    WithoutSplice(a, ids, b, id);
    DeleteOk(m, s, s.(services := Remove(s.services, svc.id), attached := s.attached - {id}, cached := cached), svc, a, id, b);
  }

  lemma WriteServicesOk(m: Mode, s: Shared, t: nat, op: Op, svc: LbService)
    requires Sound(m) && ServicesOk(m, s) && t < |s.runs|
    requires svc in s.services && Discoverable(m.cfg, svc)
    requires if op.Attach? then op.id !in s.attached else op.id in svc.spec.virtualServerIds
    ensures var s' := Write(m, s, t, op, svc);
            ServicesOk(m, s') && s'.runs[t].pc == Leaving(op, true)
  {
    hide ServicesOk, Discoverable, WithIds;
    var s' := Write(m, s, t, op, svc);
    if Deletes(m, op, svc) {
      DeleteServicesOk(m, s, svc, op.id, s'.cached);
      RunsDoNotMatter(m, s.(services := s'.services, attached := s'.attached, cached := s'.cached), s');
    } else if op.Attach? {
      AttachServicesOk(m, s, svc, op.id);
      RunsDoNotMatter(m, s.(services := s'.services, attached := s'.attached), s');
    } else {
      DetachServicesOk(m, s, svc, op.id);
      RunsDoNotMatter(m, s.(services := s'.services, attached := s'.attached), s');
    }
  }

  lemma DeleteOk(m: Mode, s: Shared, s': Shared, svc: LbService, a: seq<string>, id: string, b: seq<string>)
    requires ServicesOk(m, s) && svc in s.services && Without(svc.spec.virtualServerIds, id) == []
    requires s'.services == Remove(s.services, svc.id) && s'.nextId == s.nextId
    requires s'.cached == s.cached || s'.cached == ""
    requires AllIds(s'.services) == a + b && NoDuplicates(a + [] + b)
    requires forall x :: x in a + [] + b <==> x in s'.attached
    ensures ServicesOk(m, s')
  {
    hide NoDuplicates, Discoverable;
    assert a + [] + b == a + b;
    FreshRemove(SERVICE_ID, s.services, s.nextId, svc.id);
    RemoveMembers(s.services, svc.id);
  }

  /** What a write that gets through does to the runs. */
  lemma WriteLeaves(m: Mode, s: Shared, t: nat, op: Op, svc: LbService)
    requires t < |s.runs| && HasId(s.services, svc.id)
    ensures var s' := Write(m, s, t, op, svc);
            && s'.runs == At(s, t, Leaving(op, true)).runs && s'.holder == s.holder
            && s'.attached <= s.attached + (if op.Attach? then {op.id} else {})
  {
  }

  lemma WriteOk(m: Mode, s: Shared, t: nat, op: Op, svc: LbService)
    requires Sound(m) && Inv(m, s) && t < |s.runs| && s.runs[t].pc == Holding(op, svc)
    ensures Inv(m, Write(m, s, t, op, svc))
  {
    hide ServicesOk, NoDuplicates, Discoverable, Write;
    var s' := Write(m, s, t, op, svc);
    assert CopyCurrent(m, s, s.runs[t].pc) && Own(m, s.runs[t]);
    if op.Attach? {
      assert op.id in Coming(s.runs[t]);
    }
    WriteServicesOk(m, s, t, op, svc);
    WriteLeaves(m, s, t, op, svc);
    PlanGoesOn(s, s', t);
  }

  lemma StepOk(m: Mode, s: Shared, c: Choice)
    requires Sound(m) && Inv(m, s)
    ensures Inv(m, Step(m, s, c))
  {
    hide Inv, Look, Create, Write;
    if c.run < |s.runs| {
      var t, pc := c.run, s.runs[c.run].pc;
      match pc
      case Outside =>
        AcquireOk(m, s, t);
      case Locked(op) =>
        LeaveOk(m, s, t, op, false);
        LookOk(m, s, t, op);
      case Creating(op) =>
        LeaveOk(m, s, t, op, false);
        CreateOk(m, s, t, op);
      case Holding(op, svc) =>
        LeaveOk(m, s, t, op, false);
        WriteOk(m, s, t, op, svc);
      case Leaving(op, ok) =>
        LeaveOk(m, s, t, op, ok);
    }
  }

  /** Under every interleaving and every pattern of failing calls, the attached ids are exactly those
      successfully added and not removed, each once. */
  lemma {:induction false} NoLostUpdate(m: Mode, s: Shared, choices: seq<Choice>)
    requires Sound(m) && Inv(m, s)
    ensures Inv(m, After(m, s, choices))
    ensures var s' := After(m, s, choices);
            NoDuplicates(AllIds(s'.services)) && forall id :: id in AllIds(s'.services) <==> id in s'.attached
    decreases |choices|
  {
    hide Step;
    if choices != [] {
      StepOk(m, s, choices[0]);
      NoLostUpdate(m, Step(m, s, choices[0]), choices[1..]);
    }
  }
}
