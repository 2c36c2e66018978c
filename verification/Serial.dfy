/** What the parallel runs do to the shared service is what the attaches and detaches do one after the other. */
module Serial {
  import opened Results
  import opened Text
  import opened Tags
  import opened Resources
  import opened BrokerState
  import opened Ownership
  import opened Attachment
  import opened SharedService

  /** Nothing that the sections share was changed. */
  ghost predicate Untouched(s0: Shared, s: Shared)
  {
    s.services == s0.services && s.cached == s0.cached && s.nextId == s0.nextId && s.attached == s0.attached
  }

  /** A service was created, at the end, with no server yet. */
  ghost predicate Created(m: Mode, s0: Shared, s: Shared, svc: LbService)
  {
    && m.cfg.managed && ServiceFor(m.cfg, s0.services, s0.cached) == Ok(None)
    && s.services == s0.services + [svc] && s.cached == svc.id && s.attached == s0.attached
    && svc.spec == LbServiceSpec([], Some(m.cfg.routerId)) && CheckTags(svc.tags, ClusterQuery(m.cfg))
    && !HasId(s0.services, svc.id)
  }

  /** The operation took effect, all of it. */
  ghost predicate Took(m: Mode, s0: Shared, s: Shared, op: Op)
  {
    match op
    case Attach(id) =>
      && IsAttached(m.cfg, s0.services, s.cached, s.services, id) && s.attached == s0.attached + {id}
      && (|s.services| == |s0.services| ==> s.cached == s0.cached)
    case Detach(id) =>
      && s.services == Detached(m.cfg, s0.services, id) && s.attached == s0.attached - {id}
      && (!m.forget ==> s.cached == s0.cached)
  }

  /** It was given up, and left an empty service at most. */
  ghost predicate GaveUp(m: Mode, s0: Shared, s: Shared, op: Op)
  {
    Untouched(s0, s) || (op.Attach? && exists svc :: Created(m, s0, s, svc))
  }

  predicate Succeeds(m: Mode, s0: Shared, op: Op)
  {
    op.Detach? || CanAttach(m.cfg, s0.services, s0.cached)
  }

  /** Where the section of run `t` stands that it entered in the state `s0`, and in which a call failed or not. */
  ghost predicate Inside(m: Mode, s0: Shared, s: Shared, t: nat, op: Op, failed: bool)
    requires t < |s.runs|
  {
    !s.runs[t].pc.Outside? && s.runs[t].pc.op == op &&
    match s.runs[t].pc
    case Outside => false
    case Locked(_) => Untouched(s0, s) && !failed
    case Creating(_) =>
      Untouched(s0, s) && !failed && op.Attach? && m.cfg.managed && ServiceFor(m.cfg, s0.services, s0.cached) == Ok(None)
    case Holding(_, svc) =>
      && !failed && Succeeds(m, s0, op)
      && ((Untouched(s0, s) && Found(m, s0, op) == Some(svc)) || (op.Attach? && Created(m, s0, s, svc)))
    case Leaving(_, ok) =>
      && (if ok then Took(m, s0, s, op) else GaveUp(m, s0, s, op))
      && (!failed ==> (ok <==> Succeeds(m, s0, op)) && (!ok ==> Untouched(s0, s)))
  }

  /** The service that is there for the operation. */
  function Found(m: Mode, s0: Shared, op: Op): Option<LbService>
  {
    match op
    case Attach(_) =>
      (match ServiceFor(m.cfg, s0.services, s0.cached)
       case Ok(found) => found
       case Err(_) => None)
    case Detach(id) => FirstService(m.cfg, s0.services, Some(id))
  }

  /** While one run is in its section the others wait. */
  lemma OthersWait(m: Mode, s: Shared, t: nat, c: Choice)
    requires Sound(m) && Inv(m, s) && t < |s.runs| && !s.runs[t].pc.Outside? && c.run != t
    ensures Step(m, s, c) == s
  {
    hide ServicesOk, Planned;
    if c.run < |s.runs| {
      assert s.holder == Some(t);
    }
  }

  lemma WriteTakes(m: Mode, s0: Shared, s: Shared, t: nat, op: Op, svc: LbService)
    requires t < |s.runs| && HasId(s.services, svc.id) && UniqueIds(s.services)
    requires (Untouched(s0, s) && Found(m, s0, op) == Some(svc)) || (op.Attach? && Created(m, s0, s, svc))
    ensures Took(m, s0, Write(m, s, t, op, svc), op)
  {
    hide ServiceFor, FirstService, CheckTags, UniqueIds, Replace, Find;
    if !Untouched(s0, s) || Found(m, s0, op) != Some(svc) {
      var x := WithIds(svc, [op.id]);
      assert [] + [op.id] == [op.id];
      LastReplaced(s0.services, svc, x);
      ServiceForNone(m, s0);
    }
  }

  lemma LastReplaced(services: seq<LbService>, svc: LbService, x: LbService)
    requires !HasId(services, svc.id) && x.id == svc.id
    ensures Replace(services + [svc], x) == services + [x]
  {
    var all := services + [svc];
    assert all[|services|].id == x.id;
    forall j | 0 <= j < |services| ensures all[j].id != x.id {
      assert services[j] in services;
    }
    ReplaceAt(all, x, |services|);
    assert all[|services| := x] == services + [x];
  }

  lemma ServiceForNone(m: Mode, s: Shared)
    requires ServiceFor(m.cfg, s.services, s.cached) == Ok(None)
    ensures FirstService(m.cfg, s.services, None).None?
  {
  }

  lemma CreateIsNew(m: Mode, s0: Shared, s: Shared, t: nat, op: Op)
    requires Sound(m) && t < |s.runs| && Untouched(s0, s) && Fresh(SERVICE_ID, s.services, s.nextId)
    requires m.cfg.managed && ServiceFor(m.cfg, s0.services, s0.cached) == Ok(None)
    ensures var s' := Create(m, s, t, op);
            |s'.runs| == |s.runs| && s'.runs[t].pc.Holding? && s'.runs[t].pc.op == op && Created(m, s0, s', s'.runs[t].pc.service)
  {
    hide ServiceFor, CheckTags;
  }

  /** What a step of the run in its section does. */
  lemma StepInside(m: Mode, s0: Shared, s: Shared, t: nat, op: Op, failed: bool, fault: bool)
    requires Sound(m) && Inv(m, s) && t < |s.runs| && Inside(m, s0, s, t, op, failed) && !s.runs[t].pc.Leaving?
    ensures var s' := Step(m, s, Choice(t, fault));
            |s'.runs| == |s.runs| && Inside(m, s0, s', t, op, failed || fault)
  {
    hide ServiceFor, FirstService, Fresh, UniqueIds, Exact, CachedOk, Planned, Locking, Write, Create, IsAttached, Detached,
      CheckTags;
    var pc, s' := s.runs[t].pc, Step(m, s, Choice(t, fault));
    if fault {
      assert pc.Holding? && Created(m, s0, s, pc.service) ==> Created(m, s0, s', pc.service);
    } else {
      if pc.Creating? {
        CreateIsNew(m, s0, s, t, op);
      } else if pc.Holding? {
        assert CopyCurrent(m, s, pc);
        WriteTakes(m, s0, s, t, op, pc.service);
        WriteRuns(m, s, t, op, pc.service);
      } else {
        LookDetached(m, s0, op);
      }
    }
  }

  lemma WriteRuns(m: Mode, s: Shared, t: nat, op: Op, svc: LbService)
    requires t < |s.runs| && HasId(s.services, svc.id)
    ensures Write(m, s, t, op, svc).runs == At(s, t, Leaving(op, true)).runs
  {
  }

  lemma LookDetached(m: Mode, s0: Shared, op: Op)
    ensures op.Detach? && Found(m, s0, op).None? ==> Detached(m.cfg, s0.services, op.id) == s0.services
    ensures op.Attach? ==>
              (CanAttach(m.cfg, s0.services, s0.cached) <==>
                Found(m, s0, op).Some? || (m.cfg.managed && ServiceFor(m.cfg, s0.services, s0.cached) == Ok(None)))
  {
  }

  /** During the schedule run `t` does not leave its section. */
  predicate Stays(m: Mode, s: Shared, t: nat, choices: seq<Choice>)
    decreases |choices|
  {
    choices == [] ||
    (var s' := Step(m, s, choices[0]);
     t < |s'.runs| && !s'.runs[t].pc.Outside? && Stays(m, s', t, choices[1..]))
  }

  /** A call of run `t` fails. */
  predicate Fails(t: nat, choices: seq<Choice>)
  {
    exists c :: c in choices && c.run == t && c.fault
  }

  lemma {:induction false} InsideThroughout(m: Mode, s0: Shared, s: Shared, t: nat, op: Op, failed: bool, choices: seq<Choice>)
    requires Sound(m) && Inv(m, s) && t < |s.runs| && Inside(m, s0, s, t, op, failed) && Stays(m, s, t, choices)
    ensures var s' := After(m, s, choices);
            Inv(m, s') && |s'.runs| == |s.runs| && Inside(m, s0, s', t, op, failed || Fails(t, choices))
    decreases |choices|
  {
    hide Inv, Step, Inside, Sound;
    if choices != [] {
      var c := choices[0];
      var s1 := Step(m, s, c);
      StepOk(m, s, c);
      InsideMeans(m, s0, s, t, op, failed);
      if c.run != t {
        OthersWait(m, s, t, c);
        InsideThroughout(m, s0, s1, t, op, failed, choices[1..]);
      } else {
        assert c == Choice(t, c.fault);
        LeavesOutside(m, s, t, c);
        StepInside(m, s0, s, t, op, failed, c.fault);
        InsideThroughout(m, s0, s1, t, op, failed || c.fault, choices[1..]);
      }
      assert Fails(t, choices) <==> (c.run == t && c.fault) || Fails(t, choices[1..]) by {
        assert choices == [c] + choices[1..];
      }
    }
  }

  lemma InsideMeans(m: Mode, s0: Shared, s: Shared, t: nat, op: Op, failed: bool)
    requires t < |s.runs| && Inside(m, s0, s, t, op, failed)
    ensures !s.runs[t].pc.Outside?
  {
  }

  lemma LeavesOutside(m: Mode, s: Shared, t: nat, c: Choice)
    requires c.run == t < |s.runs|
    ensures s.runs[t].pc.Leaving? ==> |Step(m, s, c).runs| == |s.runs| && Step(m, s, c).runs[t].pc.Outside?
  {
  }

  /** Whatever other runs do meanwhile, and whatever calls fail: from the state in which a run took the lock, its
      section makes exactly the change of one attach or detach, or gives up and leaves an empty service at most. Without a
      failed call of its own it makes the change exactly if the operation can succeed. */
  lemma SectionIsAtomic(m: Mode, s0: Shared, t: nat, choices: seq<Choice>)
    requires Sound(m) && Inv(m, s0) && t < |s0.runs| && s0.holder == None
    requires s0.runs[t].pc.Outside? && s0.runs[t].todo != []
    requires var s1 := Step(m, s0, Choice(t, false)); Stays(m, s1, t, choices)
    requires var s := After(m, Step(m, s0, Choice(t, false)), choices); t < |s.runs| && s.runs[t].pc.Leaving?
    ensures var s := After(m, Step(m, s0, Choice(t, false)), choices);
            var op, ok := s0.runs[t].todo[0], s.runs[t].pc.ok;
            && (if ok then Took(m, s0, s, op) else GaveUp(m, s0, s, op))
            && (!Fails(t, choices) ==> (ok <==> Succeeds(m, s0, op)) && (!ok ==> Untouched(s0, s)))
            && (ok && op.Detach? ==> op.id !in AllIds(s.services))
            && (ok && op.Attach? ==> op.id in AllIds(s.services))
  {
    hide Took, GaveUp, Succeeds, Stays, After;
    var s1, op := Step(m, s0, Choice(t, false)), s0.runs[t].todo[0];
    StepOk(m, s0, Choice(t, false));
    InsideThroughout(m, s0, s1, t, op, false, choices);
    var s := After(m, s1, choices);
    if s.runs[t].pc.ok {
      AttachedAfter(m, s0, s, op);
    }
  }

  lemma AttachedAfter(m: Mode, s0: Shared, s: Shared, op: Op)
    requires Inv(m, s) && Took(m, s0, s, op)
    ensures op.id in AllIds(s.services) <==> op.Attach?
  {
    hide IsAttached, Detached, AllIds, RunsOk;
  }

  /** A run that goes on alone, without a failed call, is through with its section after at most three more steps. */
  lemma SectionEnds(m: Mode, s0: Shared, t: nat) returns (choices: seq<Choice>)
    requires Sound(m) && Inv(m, s0) && t < |s0.runs| && s0.holder == None
    requires s0.runs[t].pc.Outside? && s0.runs[t].todo != []
    ensures |choices| <= 3 && forall c :: c in choices ==> c == Choice(t, false)
    ensures var s1 := Step(m, s0, Choice(t, false));
            var s := After(m, s1, choices);
            Stays(m, s1, t, choices) && t < |s.runs| && s.runs[t].pc.Leaving?
  {
    hide Sound, Inv, Inside, Look, Create, Write, Fails;
    var c := Choice(t, false);
    var s1 := Step(m, s0, c);
    StepOk(m, s0, c);
    choices := Finish(m, s1, t, 3);
  }

  /** Which then has had its effect: a detach always, and an attach exactly if there is a service to attach to, or one may
      be created; otherwise nothing has changed. */
  lemma SectionAlone(m: Mode, s0: Shared, t: nat) returns (choices: seq<Choice>)
    requires Sound(m) && Inv(m, s0) && t < |s0.runs| && s0.holder == None
    requires s0.runs[t].pc.Outside? && s0.runs[t].todo != []
    ensures |choices| <= 4 && forall c :: c in choices ==> c == Choice(t, false)
    ensures var s := After(m, s0, choices);
            t < |s.runs| && s.runs[t].pc.Leaving? &&
            match s0.runs[t].todo[0]
            case Detach(id) => s.services == Detached(m.cfg, s0.services, id) && id !in AllIds(s.services)
            case Attach(id) =>
              if CanAttach(m.cfg, s0.services, s0.cached)
              then IsAttached(m.cfg, s0.services, s.cached, s.services, id) && id in AllIds(s.services)
              else s.services == s0.services
  {
    hide Sound, Inv, Step, Stays, IsAttached, Detached, CanAttach, AllIds;
    var rest := SectionEnds(m, s0, t);
    SectionIsAtomic(m, s0, t, rest);
    choices := [Choice(t, false)] + rest;
    assert choices[1..] == rest;
  }

  /** How many steps are left in the section. */
  function Left(pc: Pc): nat
  {
    match pc
    case Locked(_) => 3
    case Creating(_) => 2
    case Holding(_, _) => 1
    case _ => 0
  }

  lemma {:induction false} Finish(m: Mode, s: Shared, t: nat, n: nat) returns (choices: seq<Choice>)
    requires Sound(m) && Inv(m, s) && t < |s.runs| && !s.runs[t].pc.Outside? && Left(s.runs[t].pc) <= n
    ensures |choices| <= n && forall c :: c in choices ==> c == Choice(t, false)
    ensures var s' := After(m, s, choices);
            Stays(m, s, t, choices) && t < |s'.runs| && s'.runs[t].pc.Leaving?
    decreases n
  {
    hide Sound, Inv, Step;
    if s.runs[t].pc.Leaving? {
      choices := [];
    } else {
      var c := Choice(t, false);
      StepOk(m, s, c);
      OneStepLess(m, s, t);
      var rest := Finish(m, Step(m, s, c), t, n - 1);
      choices := [c] + rest;
      assert choices[1..] == rest;
    }
  }

  lemma OneStepLess(m: Mode, s: Shared, t: nat)
    requires t < |s.runs| && !s.runs[t].pc.Outside? && !s.runs[t].pc.Leaving?
    ensures var s' := Step(m, s, Choice(t, false));
            |s'.runs| == |s.runs| && !s'.runs[t].pc.Outside? && Left(s'.runs[t].pc) < Left(s.runs[t].pc)
  {
    hide ServiceFor, FirstService, Detached, WithServer, WithoutServer;
  }
}
