/** The life of the managed load balancer service, over all interleavings of attaching and detaching runs. */
module Lifecycle {
  import opened Results
  import opened Text
  import opened Tags
  import opened Resources
  import opened BrokerState
  import opened Ownership
  import opened Steps
  import opened Attachment
  import opened SharedService

  // ---------------------------------------------------------------- at most one service

  ghost predicate AtMostOne(m: Mode, services: seq<LbService>)
  {
    forall a, b :: a in services && b in services && Discoverable(m.cfg, a) && Discoverable(m.cfg, b) ==> a == b
  }

  lemma StepKeepsOne(m: Mode, s: Shared, c: Choice)
    requires Sound(m) && Inv(m, s) && AtMostOne(m, s.services)
    ensures AtMostOne(m, Step(m, s, c).services)
  {
    if c.run < |s.runs| && !c.fault {
      var pc := s.runs[c.run].pc;
      assert CopyCurrent(m, s, pc);
      if pc.Holding? {
        WriteKeepsOne(m, s, c.run, pc.op, pc.service);
      }
    }
  }

  lemma WriteKeepsOne(m: Mode, s: Shared, t: nat, op: Op, svc: LbService)
    requires UniqueIds(s.services) && AtMostOne(m, s.services) && t < |s.runs| && svc in s.services
    ensures AtMostOne(m, Write(m, s, t, op, svc).services)
  {
    hide CheckTags;
    RemoveMembers(s.services, svc.id);
    forall ids ensures AtMostOne(m, Replace(s.services, WithIds(svc, ids))) {
      var x := WithIds(svc, ids);
      assert HasId(s.services, x.id);
      ReplaceMembers(s.services, x);
      assert Discoverable(m.cfg, x) == Discoverable(m.cfg, svc);
    }
  }

  /** At no point of any schedule does the controller have two services. */
  lemma {:induction false} NeverTwoServices(m: Mode, s: Shared, choices: seq<Choice>)
    requires Sound(m) && Inv(m, s) && AtMostOne(m, s.services)
    ensures AtMostOne(m, After(m, s, choices).services)
    decreases |choices|
  {
    hide Step, Inv, AtMostOne, Sound;
    if choices != [] {
      StepOk(m, s, choices[0]);
      StepKeepsOne(m, s, choices[0]);
      NeverTwoServices(m, Step(m, s, choices[0]), choices[1..]);
    }
  }

  // ---------------------------------------------------------------- the service exists while it has servers

  /** Only a run about to attach its server holds an empty service. */
  ghost predicate Tidy(m: Mode, s: Shared)
  {
    forall svc :: svc in s.services && Discoverable(m.cfg, svc) && svc.spec.virtualServerIds == [] ==>
                    exists t :: 0 <= t < |s.runs| && s.runs[t].pc.Holding? && s.runs[t].pc.op.Attach? &&
                                s.runs[t].pc.service == svc
  }

  /** The other runs, and those services that were there, are as before. */
  lemma MoveKeepsTidy(m: Mode, s: Shared, s': Shared, t: nat)
    requires Tidy(m, s) && t < |s.runs| && |s'.runs| == |s.runs| && !s.runs[t].pc.Holding?
    requires forall u :: 0 <= u < |s.runs| && u != t ==> s'.runs[u] == s.runs[u]
    requires forall svc :: svc in s'.services && svc !in s.services ==>
               s'.runs[t].pc.Holding? && s'.runs[t].pc.op.Attach? && s'.runs[t].pc.service == svc
    ensures Tidy(m, s')
  {
  }

  lemma StepKeepsTidy(m: Mode, s: Shared, c: Choice)
    requires Sound(m) && m.cfg.managed && Inv(m, s) && Tidy(m, s) && !c.fault
    ensures Tidy(m, Step(m, s, c))
  {
    hide CheckTags, ServicesOk, Discoverable, Tidy, FirstService, ServiceFor, Write;
    if c.run < |s.runs| {
      var t, pc := c.run, s.runs[c.run].pc;
      assert CopyCurrent(m, s, pc);
      ServiceIdsUnique(m, s);
      if pc.Holding? {
        WriteKeepsTidy(m, s, t, pc.op, pc.service);
      } else {
        MoveKeepsTidy(m, s, Step(m, s, c), t);
      }
    }
  }

  lemma ServiceIdsUnique(m: Mode, s: Shared)
    requires Inv(m, s)
    ensures UniqueIds(s.services)
  {
  }

  function Written(op: Op, svc: LbService): seq<string>
  {
    match op
    case Attach(id) => svc.spec.virtualServerIds + [id]
    case Detach(id) => Without(svc.spec.virtualServerIds, id)
  }

  /** Every other service stays, and the one written has a server more or less, in managed mode at least one. */
  lemma ServicesWritten(m: Mode, s: Shared, t: nat, op: Op, svc: LbService)
    requires t < |s.runs| && svc in s.services && UniqueIds(s.services)
    ensures forall x :: x in Write(m, s, t, op, svc).services ==>
                          || (x in s.services && x.id != svc.id)
                          || (x == WithIds(svc, Written(op, svc)) && (m.cfg.managed ==> x.spec.virtualServerIds != []))
  {
    hide UniqueIds, Replace, Remove, Without;
    assert HasId(s.services, svc.id);
    RemoveMembers(s.services, svc.id);
    ReplaceMembers(s.services, WithIds(svc, Written(op, svc)));
  }

  lemma WriteKeepsTidy(m: Mode, s: Shared, t: nat, op: Op, svc: LbService)
    requires m.cfg.managed && UniqueIds(s.services) && Tidy(m, s) && Locking(s)
    requires t < |s.runs| && s.runs[t].pc == Holding(op, svc) && svc in s.services
    ensures Tidy(m, Write(m, s, t, op, svc))
  {
    hide CheckTags, Discoverable, Write, UniqueIds, Locking;
    ServicesWritten(m, s, t, op, svc);
    forall x | x in Write(m, s, t, op, svc).services && Discoverable(m.cfg, x) ensures x.spec.virtualServerIds != [] {
      if x in s.services && x.id != svc.id {
        OnlyHeldIsEmpty(m, s, t, op, svc, x);
      }
    }
  }

  lemma OnlyHeldIsEmpty(m: Mode, s: Shared, t: nat, op: Op, svc: LbService, x: LbService)
    requires Tidy(m, s) && Locking(s) && t < |s.runs| && s.runs[t].pc == Holding(op, svc)
    requires x in s.services && Discoverable(m.cfg, x)
    ensures x == svc || x.spec.virtualServerIds != []
  {
  }

  lemma {:induction false} FaultFreeStaysTidy(m: Mode, s: Shared, choices: seq<Choice>)
    requires Sound(m) && m.cfg.managed && Inv(m, s) && Tidy(m, s)
    requires forall c :: c in choices ==> !c.fault
    ensures Tidy(m, After(m, s, choices)) && Inv(m, After(m, s, choices))
    decreases |choices|
  {
    hide Step, Inv, Tidy, Sound;
    if choices != [] {
      StepOk(m, s, choices[0]);
      StepKeepsTidy(m, s, choices[0]);
      FaultFreeStaysTidy(m, Step(m, s, choices[0]), choices[1..]);
    }
  }

  // ---------------------------------------------------------------- an empty service, under any faults

  /** A service of ours has no server attached. */
  ghost predicate HasEmpty(m: Mode, s: Shared)
  {
    exists svc :: svc in s.services && Discoverable(m.cfg, svc) && svc.spec.virtualServerIds == []
  }

  /** The step creates the service. */
  predicate Creates(s: Shared, c: Choice)
  {
    c.run < |s.runs| && !c.fault && s.runs[c.run].pc.Creating?
  }

  /** The step writes the service back, with a server more or less, or deletes it. */
  predicate Writes(s: Shared, c: Choice)
  {
    c.run < |s.runs| && !c.fault && s.runs[c.run].pc.Holding?
  }

  /** Whatever calls failed before, an attach or detach that gets through leaves no empty service behind. */
  lemma WriteLeavesNoEmpty(m: Mode, s: Shared, t: nat, op: Op, svc: LbService)
    requires Sound(m) && m.cfg.managed && Inv(m, s) && AtMostOne(m, s.services)
    requires t < |s.runs| && s.runs[t].pc == Holding(op, svc)
    ensures forall x :: x in Write(m, s, t, op, svc).services && Discoverable(m.cfg, x) ==> x.spec.virtualServerIds != []
  {
    hide CheckTags, Discoverable, Exact, Planned, Own, Locking, CachedOk, Write, UniqueIds;
    assert CopyCurrent(m, s, s.runs[t].pc);
    ServicesWritten(m, s, t, op, svc);
  }

  /** A step leaves an empty service exactly if it creates one, or if there was one and it writes nothing back. */
  lemma EmptyExactly(m: Mode, s: Shared, c: Choice)
    requires Sound(m) && m.cfg.managed && Inv(m, s) && AtMostOne(m, s.services)
    ensures HasEmpty(m, Step(m, s, c)) <==> Creates(s, c) || (HasEmpty(m, s) && !Writes(s, c))
  {
    hide Discoverable, Inv, Look, FirstService, ServiceFor;
    if Creates(s, c) {
      CreatedIsEmpty(m, s, c.run, s.runs[c.run].pc.op);
    } else if Writes(s, c) {
      WriteLeavesNoEmpty(m, s, c.run, s.runs[c.run].pc.op, s.runs[c.run].pc.service);
    } else {
      assert Step(m, s, c).services == s.services by { OnlyWritesWrite(m, s, c); }
    }
  }

  lemma CreatedIsEmpty(m: Mode, s: Shared, t: nat, op: Op)
    requires Sound(m) && t < |s.runs|
    ensures HasEmpty(m, Create(m, s, t, op))
  {
    hide CheckTags;
    var services := Create(m, s, t, op).services;
    assert services[|s.services|] in services;
  }

  lemma OnlyWritesWrite(m: Mode, s: Shared, c: Choice)
    requires !Creates(s, c) && !Writes(s, c)
    ensures Step(m, s, c).services == s.services
  {
  }

  lemma {:induction false} AfterLast(m: Mode, s: Shared, choices: seq<Choice>, c: Choice)
    ensures After(m, s, choices + [c]) == Step(m, After(m, s, choices), c)
    decreases |choices|
  {
    hide Step;
    if choices == [] {
      assert ([] + [c])[1..] == [] && ([] + [c])[0] == c;
    } else {
      AfterLast(m, Step(m, s, choices[0]), choices[1..], c);
      assert (choices + [c])[1..] == choices[1..] + [c] && (choices + [c])[0] == choices[0];
    }
  }

  /** Some step of the schedule created the service, and none since then has written it back. */
  ghost predicate LeftEmpty(m: Mode, s: Shared, choices: seq<Choice>)
  {
    exists i :: && 0 <= i < |choices| && Creates(After(m, s, choices[..i]), choices[i])
                && forall j :: i < j < |choices| ==> !Writes(After(m, s, choices[..j]), choices[j])
  }

  lemma LeftEmptyLast(m: Mode, s: Shared, choices: seq<Choice>)
    requires choices != []
    ensures var n := |choices| - 1;
            var at := After(m, s, choices[..n]);
            LeftEmpty(m, s, choices) <==>
              Creates(at, choices[n]) || (LeftEmpty(m, s, choices[..n]) && !Writes(at, choices[n]))
  {
    hide Creates, Writes, After;
    var n := |choices| - 1;
    var before := choices[..n];
    assert forall i :: 0 <= i < n ==> before[..i] == choices[..i] && before[i] == choices[i];
    if LeftEmpty(m, s, before) && !Writes(After(m, s, before), choices[n]) {
      var i :| && 0 <= i < |before| && Creates(After(m, s, before[..i]), before[i])
               && forall j :: i < j < |before| ==> !Writes(After(m, s, before[..j]), before[j]);
      assert Creates(After(m, s, choices[..i]), choices[i]);
    }
    if LeftEmpty(m, s, choices) && !Creates(After(m, s, before), choices[n]) {
      var i :| && 0 <= i < |choices| && Creates(After(m, s, choices[..i]), choices[i])
               && forall j :: i < j < |choices| ==> !Writes(After(m, s, choices[..j]), choices[j]);
      assert i < n && Creates(After(m, s, before[..i]), before[i]);
      assert !Writes(After(m, s, choices[..n]), choices[n]);
    }
  }

  /** Under every schedule and every pattern of failing calls: an empty service remains exactly if one was created
      and no attach or detach got through since, that is, if the write after the creation failed. */
  lemma {:induction false} EmptyRemainsExactly(m: Mode, s: Shared, choices: seq<Choice>)
    requires Sound(m) && m.cfg.managed && Inv(m, s) && AtMostOne(m, s.services) && !HasEmpty(m, s)
    ensures Inv(m, After(m, s, choices)) && AtMostOne(m, After(m, s, choices).services)
    ensures HasEmpty(m, After(m, s, choices)) <==> LeftEmpty(m, s, choices)
    decreases |choices|
  {
    hide Step, Inv, AtMostOne, Sound, HasEmpty, Creates, Writes, LeftEmpty;
    NoLostUpdate(m, s, choices);
    NeverTwoServices(m, s, choices);
    if choices == [] {
      assert !LeftEmpty(m, s, []) by { NothingLeftEmpty(m, s); }
    } else {
      var n := |choices| - 1;
      EmptyRemainsExactly(m, s, choices[..n]);
      EmptyExactly(m, After(m, s, choices[..n]), choices[n]);
      AfterLast(m, s, choices[..n], choices[n]);
      assert choices[..n] + [choices[n]] == choices;
      LeftEmptyLast(m, s, choices);
    }
  }

  lemma NothingLeftEmpty(m: Mode, s: Shared)
    ensures !LeftEmpty(m, s, [])
  {
  }

  /** Nobody else attaches servers to a service of ours. */
  ghost predicate OnlyOurs(m: Mode, s: Shared)
  {
    forall svc, id :: svc in s.services && Discoverable(m.cfg, svc) && id in svc.spec.virtualServerIds ==> id !in m.foreign
  }

  lemma StepKeepsOurs(m: Mode, s: Shared, c: Choice)
    requires Sound(m) && Inv(m, s) && OnlyOurs(m, s)
    ensures OnlyOurs(m, Step(m, s, c))
  {
    hide Discoverable, Exact, Planned, Locking, CachedOk, Look;
    if Writes(s, c) {
      var pc := s.runs[c.run].pc;
      assert CopyCurrent(m, s, pc) && Own(m, s.runs[c.run]);
      WriteKeepsOurs(m, s, c.run, pc.op, pc.service);
    } else if !Creates(s, c) {
      OnlyWritesWrite(m, s, c);
    }
  }

  lemma WriteKeepsOurs(m: Mode, s: Shared, t: nat, op: Op, svc: LbService)
    requires OnlyOurs(m, s) && t < |s.runs| && op.id !in m.foreign
    requires svc in s.services && Discoverable(m.cfg, svc) && UniqueIds(s.services)
    ensures OnlyOurs(m, Write(m, s, t, op, svc))
  {
    hide Discoverable, Write, UniqueIds;
    ServicesWritten(m, s, t, op, svc);
    WithoutSubset(svc.spec.virtualServerIds, op.id);
  }

  lemma {:induction false} OnlyOursStays(m: Mode, s: Shared, choices: seq<Choice>)
    requires Sound(m) && Inv(m, s) && OnlyOurs(m, s)
    ensures OnlyOurs(m, After(m, s, choices))
    decreases |choices|
  {
    hide Step, Inv, Sound, OnlyOurs;
    if choices != [] {
      StepOk(m, s, choices[0]);
      StepKeepsOurs(m, s, choices[0]);
      OnlyOursStays(m, Step(m, s, choices[0]), choices[1..]);
    }
  }

  lemma ExistsWithServers(m: Mode, s: Shared)
    requires Inv(m, s) && OnlyOurs(m, s)
    ensures (exists svc :: svc in s.services && Discoverable(m.cfg, svc)) <==>
            (exists id :: id in s.attached && id !in m.foreign) || HasEmpty(m, s)
  {
    hide CheckTags, Discoverable;
    if svc :| svc in s.services && Discoverable(m.cfg, svc) && svc.spec.virtualServerIds != [] {
      AttachedIds(s.services, svc, svc.spec.virtualServerIds[0]);
    }
    if id :| id in s.attached && id !in m.foreign {
      AttachedSomewhere(s.services, id);
      var svc :| svc in s.services && id in svc.spec.virtualServerIds;
      assert Ours(m, svc);
    }
  }

  /** At every point of every schedule the service exists exactly while a server of ours is attached, or an empty one
      was left. */
  lemma ExistsIffServers(m: Mode, s: Shared, choices: seq<Choice>)
    requires Sound(m) && Inv(m, s) && OnlyOurs(m, s)
    ensures var s' := After(m, s, choices);
            (exists svc :: svc in s'.services && Discoverable(m.cfg, svc)) <==>
            (exists id :: id in s'.attached && id !in m.foreign) || HasEmpty(m, s')
  {
    hide Step, Inv, Sound, OnlyOurs, HasEmpty, Discoverable;
    NoLostUpdate(m, s, choices);
    OnlyOursStays(m, s, choices);
    ExistsWithServers(m, After(m, s, choices));
  }

  // ---------------------------------------------------------------- an unmanaged service is never deleted

  ghost predicate SameServiceIds(a: seq<LbService>, b: seq<LbService>)
  {
    |a| == |b| && forall i :: 0 <= i < |a| ==> a[i].id == b[i].id
  }

  lemma {:induction false} UnmanagedNeverDeleted(m: Mode, s: Shared, choices: seq<Choice>)
    requires Sound(m) && !m.cfg.managed && Inv(m, s)
    ensures SameServiceIds(s.services, After(m, s, choices).services)
    decreases |choices|
  {
    if choices != [] {
      var s' := Step(m, s, choices[0]);
      StepOk(m, s, choices[0]);
      assert SameServiceIds(s.services, s'.services) by {
        if choices[0].run < |s.runs| {
          assert CopyCurrent(m, s, s.runs[choices[0].run].pc);
        }
      }
      UnmanagedNeverDeleted(m, s', choices[1..]);
    }
  }

  // ---------------------------------------------------------------- the remembered id

  ghost predicate CachedLive(s: Shared)
  {
    s.cached == "" || HasId(s.services, s.cached)
  }

  /** The step deletes the service whose id is remembered. */
  predicate DeletesRemembered(m: Mode, s: Shared, c: Choice)
  {
    c.run < |s.runs| && !c.fault && s.runs[c.run].pc.Holding? &&
    Deletes(m, s.runs[c.run].pc.op, s.runs[c.run].pc.service) && s.runs[c.run].pc.service.id == s.cached
  }

  /** The remembered id goes stale exactly when the service is deleted and the id is not cleared. */
  lemma RememberedIdExact(m: Mode, s: Shared, c: Choice)
    requires Sound(m) && Inv(m, s) && CachedLive(s) && s.cached != ""
    ensures CachedLive(Step(m, s, c)) <==> m.forget || !DeletesRemembered(m, s, c)
  {
    hide CheckTags, Planned, Exact, CachedOk, Locking;
    if c.run < |s.runs| && !c.fault {
      var pc := s.runs[c.run].pc;
      assert CopyCurrent(m, s, pc);
      if pc.Holding? {
        WriteRemembered(m, s, c.run, pc.op, pc.service);
      } else if pc.Creating? {
        var s' := Step(m, s, c);
        assert s'.services[|s.services|] in s'.services;
      }
    }
  }

  lemma WriteRemembered(m: Mode, s: Shared, t: nat, op: Op, svc: LbService)
    requires UniqueIds(s.services) && t < |s.runs| && svc in s.services
    requires s.cached != "" && HasId(s.services, s.cached)
    ensures CachedLive(Write(m, s, t, op, svc)) <==> m.forget || !(Deletes(m, op, svc) && svc.id == s.cached)
  {
    hide CheckTags, Without, WithIds;
    RemoveMembers(s.services, svc.id);
    var w :| w in s.services && w.id == s.cached;
    if Deletes(m, op, svc) && svc.id != s.cached {
      assert w in Remove(s.services, svc.id);
    }
    forall ids ensures HasId(Replace(s.services, WithIds(svc, ids)), s.cached) {
      var i :| 0 <= i < |s.services| && s.services[i] == w;
      var r := Replace(s.services, WithIds(svc, ids));
      assert r[i] in r;
    }
  }

  /** With the id cleared on delete, it is never stale. */
  lemma {:induction false} RepairedNeverStale(m: Mode, s: Shared, choices: seq<Choice>)
    requires Sound(m) && m.forget && Inv(m, s) && CachedLive(s)
    ensures CachedLive(After(m, s, choices))
    decreases |choices|
  {
    hide Inv;
    if choices != [] {
      StepOk(m, s, choices[0]);
      StepLive(m, s, choices[0]);
      RepairedNeverStale(m, Step(m, s, choices[0]), choices[1..]);
    }
  }

  lemma StepLive(m: Mode, s: Shared, c: Choice)
    requires Sound(m) && m.forget && Inv(m, s) && CachedLive(s)
    ensures CachedLive(Step(m, s, c))
  {
    hide Inv, Sound;
    if s.cached != "" {
      RememberedIdExact(m, s, c);
    } else if c.run < |s.runs| && s.runs[c.run].pc.Creating? && !c.fault {
      var s' := Step(m, s, c);
      assert s'.services[|s.services|] in s'.services;
    }
  }

  /** The remembered id names a service that is gone, and no attach is past its lookup. */
  ghost predicate Stale(s: Shared)
  {
    && s.cached != "" && !HasId(s.services, s.cached)
    && forall t :: 0 <= t < |s.runs| ==>
         !s.runs[t].pc.Creating? && (s.runs[t].pc.Holding? ==> s.runs[t].pc.op.Detach?)
  }

  lemma StepStaysStale(m: Mode, s: Shared, c: Choice)
    requires Sound(m) && Inv(m, s) && Stale(s)
    ensures Stale(Step(m, s, c)) && Step(m, s, c).attached <= s.attached
  {
    hide CheckTags, Planned, Exact, CachedOk, Locking, Without, WithIds;
    if c.run < |s.runs| && !c.fault {
      var pc := s.runs[c.run].pc;
      assert CopyCurrent(m, s, pc);
      if pc.Holding? {
        RemoveMembers(s.services, pc.service.id);
        forall ids ensures !HasId(Replace(s.services, WithIds(pc.service, ids)), s.cached) {
          var r := Replace(s.services, WithIds(pc.service, ids));
          forall x | x in r ensures x.id != s.cached {
            var i :| 0 <= i < |r| && r[i] == x;
            assert s.services[i] in s.services;
          }
        }
      }
    }
  }

  /** A stale id stays: whatever the runs do from then on, no server is ever attached again. */
  lemma {:induction false} StaleForever(m: Mode, s: Shared, choices: seq<Choice>)
    requires Sound(m) && Inv(m, s) && Stale(s)
    ensures Stale(After(m, s, choices)) && After(m, s, choices).attached <= s.attached
    decreases |choices|
  {
    hide Step, Inv, Stale, Sound;
    if choices != [] {
      StepOk(m, s, choices[0]);
      StepStaysStale(m, s, choices[0]);
      StaleForever(m, Step(m, s, choices[0]), choices[1..]);
    }
  }

  // ---------------------------------------------------------------- when an attach succeeds

  /** What the lookup of an attach needs: an id that is unknown, or known and accepted. */
  predicate Usable(cfg: Config, s: Shared)
  {
    s.cached == "" || (Find(s.services, s.cached).Some? && AcceptedById(cfg, Find(s.services, s.cached).value))
  }

  /** The run for `t` makes `n` steps without a fault. */
  function Solo(t: nat, n: nat): (choices: seq<Choice>)
    ensures |choices| == n && forall c :: c in choices ==> c == Choice(t, false)
  {
    if n == 0 then [] else [Choice(t, false)] + Solo(t, n - 1)
  }

  lemma SoloStep(m: Mode, s: Shared, t: nat, n: nat)
    requires n > 0
    ensures After(m, s, Solo(t, n)) == After(m, Step(m, s, Choice(t, false)), Solo(t, n - 1))
  {
  }

  /** In managed mode a fault-free attach succeeds exactly when the remembered id is unknown or accepted. */
  lemma AttachSucceedsIff(m: Mode, s: Shared, t: nat, id: string)
    requires Sound(m) && m.cfg.managed && Inv(m, s) && s.holder == None
    requires t < |s.runs| && s.runs[t].pc.Outside? && s.runs[t].todo != [] && s.runs[t].todo[0] == Attach(id)
    ensures id in After(m, s, Solo(t, 4)).attached <==> Usable(m.cfg, s)
  {
    hide Step, Inv, Sound;
    var c := Choice(t, false);
    var s1 := Step(m, s, c);
    var s2 := Step(m, s1, c);
    var s3 := Step(m, s2, c);
    var s4 := Step(m, s3, c);
    assert After(m, s, Solo(t, 4)) == s4 by {
      SoloStep(m, s, t, 4);
      SoloStep(m, s1, t, 3);
      SoloStep(m, s2, t, 2);
      SoloStep(m, s3, t, 1);
      assert Solo(t, 0) == [];
    }
    StepOk(m, s, c);
    StepOk(m, s1, c);
    StepOk(m, s2, c);
    FirstSteps(m, s, t, id);
    LastSteps(m, s2, t, id);
  }

  lemma FirstSteps(m: Mode, s: Shared, t: nat, id: string)
    requires Inv(m, s) && m.cfg.managed && s.holder == None && t < |s.runs| && s.runs[t].pc.Outside?
    requires s.runs[t].todo != [] && s.runs[t].todo[0] == Attach(id)
    ensures id !in s.attached
    ensures var c := Choice(t, false);
            var s2 := Step(m, Step(m, s, c), c);
            var pc := s2.runs[t].pc;
            && s2.attached == s.attached && |s2.runs| == |s.runs|
            && (if Usable(m.cfg, s) then (pc.Holding? || pc.Creating?) && pc.op == Attach(id)
                else pc == Leaving(Attach(id), false))
  {
    hide ServicesOk, CheckTags;
    assert id in Coming(s.runs[t]);
  }

  lemma LastSteps(m: Mode, s: Shared, t: nat, id: string)
    requires Inv(m, s) && t < |s.runs| && id !in s.attached
    requires var pc := s.runs[t].pc; (pc.Holding? || pc.Creating? || pc == Leaving(Attach(id), false)) && pc.op == Attach(id)
    ensures var c := Choice(t, false);
            id in Step(m, Step(m, s, c), c).attached <==> !s.runs[t].pc.Leaving?
  {
    hide CheckTags, Planned, Exact, CachedOk;
    var c := Choice(t, false);
    var s1 := Step(m, s, c);
    assert CopyCurrent(m, s, s.runs[t].pc);
    if s.runs[t].pc.Creating? {
      var svc := s1.services[|s.services|];
      assert svc in s1.services && s1.runs[t].pc == Holding(Attach(id), svc);
      assert HasId(s1.services, svc.id);
    } else if s.runs[t].pc.Holding? {
      assert HasId(s.services, s.runs[t].pc.service.id);
    }
  }

  // ---------------------------------------------------------------- the two ways to go wrong

  function NewService(m: Mode, nextId: nat, ids: seq<string>): LbService
  {
    Resource(SERVICE_ID + Format(nextId), m.tags, LbServiceSpec(ids, Some(m.cfg.routerId)))
  }

  /** A fresh managed controller attaches its first server and detaches it again, in nine steps. */
  function Scene(m: Mode, nextId: nat, a: string, next: string, i: nat): Shared
  {
    var id := SERVICE_ID + Format(nextId);
    var todo := [Detach(a), Attach(next)];
    var empty, full := NewService(m, nextId, []), NewService(m, nextId, [a]);
    if i == 0 then Shared([], "", nextId, None, [Run([Attach(a)] + todo, Outside)], {})
    else if i == 1 then Shared([], "", nextId, Some(0), [Run(todo, Locked(Attach(a)))], {})
    else if i == 2 then Shared([], "", nextId, Some(0), [Run(todo, Creating(Attach(a)))], {})
    else if i == 3 then Shared([empty], id, nextId + 1, Some(0), [Run(todo, Holding(Attach(a), empty))], {})
    else if i == 4 then Shared([full], id, nextId + 1, Some(0), [Run(todo, Leaving(Attach(a), true))], {a})
    else if i == 5 then Shared([full], id, nextId + 1, None, [Run(todo, Outside)], {a})
    else if i == 6 then Shared([full], id, nextId + 1, Some(0), [Run([Attach(next)], Locked(Detach(a)))], {a})
    else if i == 7 then Shared([full], id, nextId + 1, Some(0), [Run([Attach(next)], Holding(Detach(a), full))], {a})
    else if i == 8 then Shared([], id, nextId + 1, Some(0), [Run([Attach(next)], Leaving(Detach(a), true))], {})
    else Shared([], id, nextId + 1, None, [Run([Attach(next)], Outside)], {})
  }

  lemma AttachScenes(m: Mode, nextId: nat, a: string, next: string, i: nat)
    requires Sound(m) && m.cfg.managed && !m.forget && i < 5
    ensures Step(m, Scene(m, nextId, a, next, i), Choice(0, false)) == Scene(m, nextId, a, next, i + 1)
  {
    hide CheckTags, Format;
    var empty := NewService(m, nextId, []);
    assert ([Attach(a)] + [Detach(a), Attach(next)])[1..] == [Detach(a), Attach(next)];
    assert empty.spec.virtualServerIds + [a] == [a];
    assert Find([empty], empty.id) == Some(empty);
    assert Replace([empty], WithIds(empty, [a])) == [NewService(m, nextId, [a])];
  }

  lemma DetachScenes(m: Mode, nextId: nat, a: string, next: string, i: nat)
    requires Sound(m) && m.cfg.managed && !m.forget && 5 <= i < 9
    ensures Step(m, Scene(m, nextId, a, next, i), Choice(0, false)) == Scene(m, nextId, a, next, i + 1)
  {
    hide CheckTags, Format;
    var full := NewService(m, nextId, [a]);
    assert Wanted(m.cfg, full, Some(a));
    assert FirstService(m.cfg, [full], Some(a)) == Some(full);
    assert Without([a], a) == [];
    assert Remove([full], full.id) == [];
  }

  lemma {:induction false} ScenesFollow(m: Mode, nextId: nat, a: string, next: string, i: nat)
    requires Sound(m) && m.cfg.managed && !m.forget && i <= 9
    ensures After(m, Scene(m, nextId, a, next, i), Solo(0, 9 - i)) == Scene(m, nextId, a, next, 9)
    decreases 9 - i
  {
    hide Scene, Step, Sound;
    if i < 9 {
      SoloStep(m, Scene(m, nextId, a, next, i), 0, 9 - i);
      if i < 5 {
        AttachScenes(m, nextId, a, next, i);
      } else {
        DetachScenes(m, nextId, a, next, i);
      }
      ScenesFollow(m, nextId, a, next, i + 1);
    }
  }

  /** As coded, deleting the service ends its use: after nine fault-free steps no attach can succeed any more. */
  lemma DeletedServiceStaysAway(m: Mode, nextId: nat, a: string, next: string)
    requires Sound(m) && m.cfg.managed && !m.forget
    ensures var s := After(m, Scene(m, nextId, a, next, 0), Solo(0, 9));
            s.services == [] && s.attached == {} && Stale(s) && !Usable(m.cfg, s)
  {
    hide After, Step, Solo, CheckTags, Format;
    ScenesFollow(m, nextId, a, next, 0);
    assert (SERVICE_ID + Format(nextId))[0] == 'l';
  }

  // ---------------------------------------------------------------- without the lock

  /** Two runs that do not exclude each other write back their copies of one service. */
  function Race(svc: LbService, nextId: nat, a: string, b: string): Shared
  {
    Shared([svc], svc.id, nextId, None, [Run([Attach(a)], Outside), Run([Attach(b)], Outside)], {})
  }

  const OVERLAP := [Choice(0, false), Choice(1, false), Choice(0, false), Choice(1, false), Choice(0, false), Choice(1, false)]

  lemma RaceSteps(m: Mode, svc: LbService, s0: Shared, s1: Shared, s2: Shared, s3: Shared, s4: Shared, s5: Shared, s6: Shared)
    requires !m.useLock && AcceptedById(m.cfg, svc) && svc.id != "" && svc.spec.virtualServerIds == []
    requires |s0.runs| == 2 && s0.runs[0].pc.Outside? && s0.runs[1].pc.Outside? && s0.services == [svc] && s0.cached == svc.id
    requires |s0.runs[0].todo| == 1 && |s0.runs[1].todo| == 1 && s0.attached == {}
    requires s0.runs[0].todo[0].Attach? && s0.runs[1].todo[0].Attach?
    requires var opA, opB := s0.runs[0].todo[0], s0.runs[1].todo[0];
             && s1 == s0.(holder := Some(0), runs := [Run([], Locked(opA)), s0.runs[1]])
             && s2 == s1.(holder := Some(1), runs := [Run([], Locked(opA)), Run([], Locked(opB))])
             && s3 == s2.(runs := [Run([], Holding(opA, svc)), Run([], Locked(opB))])
             && s4 == s2.(runs := [Run([], Holding(opA, svc)), Run([], Holding(opB, svc))])
             && s5 == s4.(services := [WithIds(svc, [opA.id])], runs := [Run([], Leaving(opA, true)), s4.runs[1]],
                          attached := {opA.id})
             && s6 == s5.(services := [WithIds(svc, [opB.id])], attached := {opA.id, opB.id},
                          runs := [Run([], Leaving(opA, true)), Run([], Leaving(opB, true))])
    ensures Step(m, s0, Choice(0, false)) == s1 && Step(m, s1, Choice(1, false)) == s2
    ensures Step(m, s2, Choice(0, false)) == s3 && Step(m, s3, Choice(1, false)) == s4
    ensures Step(m, s4, Choice(0, false)) == s5 && Step(m, s5, Choice(1, false)) == s6
  {
    var opA, opB := s0.runs[0].todo[0], s0.runs[1].todo[0];
    assert s0.runs[0].todo[1..] == [] && s0.runs[1].todo[1..] == [];
    assert ServiceFor(m.cfg, [svc], svc.id) == Ok(Some(svc));
    assert [] + [opA.id] == [opA.id] && [] + [opB.id] == [opB.id];
    var a := WithIds(svc, [opA.id]);
    assert Find([a], svc.id) == Some(a);
    assert Replace([svc], a) == [a];
    assert Replace([a], WithIds(svc, [opB.id])) == [WithIds(svc, [opB.id])];
  }

  /** Without the lock the first of two servers is lost although both attaches succeed. */
  lemma UnlockedUpdateLost(m: Mode, svc: LbService, nextId: nat, a: string, b: string)
    requires !m.useLock && AcceptedById(m.cfg, svc) && svc.id != "" && svc.spec.virtualServerIds == [] && a != b
    ensures var s := After(m, Race(svc, nextId, a, b), OVERLAP);
            && s.attached == {a, b} && AllIds(s.services) == [b]
            && s.runs == [Run([], Leaving(Attach(a), true)), Run([], Leaving(Attach(b), true))]
  {
    hide Step, AcceptedById;
    var c0, c1 := Choice(0, false), Choice(1, false);
    var opA, opB := Attach(a), Attach(b);
    var s0 := Race(svc, nextId, a, b);
    var s1 := s0.(holder := Some(0), runs := [Run([], Locked(opA)), s0.runs[1]]);
    var s2 := s1.(holder := Some(1), runs := [Run([], Locked(opA)), Run([], Locked(opB))]);
    var s3 := s2.(runs := [Run([], Holding(opA, svc)), Run([], Locked(opB))]);
    var s4 := s2.(runs := [Run([], Holding(opA, svc)), Run([], Holding(opB, svc))]);
    var s5 := Shared([WithIds(svc, [a])], svc.id, nextId, Some(1), [Run([], Leaving(opA, true)), s4.runs[1]], {a});
    var s6 := Shared([WithIds(svc, [b])], svc.id, nextId, Some(1),
                     [Run([], Leaving(opA, true)), Run([], Leaving(opB, true))], {a, b});
    RaceSteps(m, svc, s0, s1, s2, s3, s4, s5, s6);
    assert OVERLAP == [c0] + [c1] + [c0] + [c1] + [c0] + [c1];
    calc {
      After(m, s0, OVERLAP);
      { assert OVERLAP[1..] == [c1, c0, c1, c0, c1]; }
      After(m, s1, [c1, c0, c1, c0, c1]);
      { assert [c1, c0, c1, c0, c1][1..] == [c0, c1, c0, c1]; }
      After(m, s2, [c0, c1, c0, c1]);
      { assert [c0, c1, c0, c1][1..] == [c1, c0, c1]; }
      After(m, s3, [c1, c0, c1]);
      { assert [c1, c0, c1][1..] == [c0, c1]; }
      After(m, s4, [c0, c1]);
      { assert [c0, c1][1..] == [c1]; }
      After(m, s5, [c1]);
      { assert [c1][1..] == []; }
      s6;
    }
    assert AllIds(s6.services) == [b] + AllIds([]);
  }
}
