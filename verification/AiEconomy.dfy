/**
 Who gathers what: the harvester assigner with its memory, the plain senders the
 mine-bound races use, and the structure three of them raise over a gold seam.
 */
module AiEconomy {
  import opened Wrappers
  import opened AiView
  import opened AiChassis

  // ─── Harvesters ───────────────────────────────────────────────────────────

  /** A busy worker in sight that neither was just sent nor is the remembered builder. */
  predicate Pullable(w: Entity, builderId: Option<nat>, builder: Option<nat>) {
    !w.idle && !w.hidden && Some(w.id) != builderId && Some(w.id) != builder
  }

  /** An idle worker in sight that was not just sent to build. */
  predicate Free(w: Entity, builderId: Option<nat>) {
    w.idle && !w.hidden && Some(w.id) != builderId
  }

  predicate Busy(workers: seq<Entity>, id: Option<nat>) {
    exists i | 0 <= i < |workers| :: Some(workers[i].id) == id && !workers[i].idle
  }

  predicate IsTree(e: Entity) {
    HasResource(e, Tree)
  }

  predicate IsSeam(e: Entity) {
    HasResource(e, GoldMine)
  }

  ghost predicate Any(entities: seq<Entity>, accept: Entity -> bool) {
    exists i :: 0 <= i < |entities| && accept(entities[i])
  }

  /** A tree, a seam and a standing source each are there while one has something left. */
  lemma SourcesThere(v: View, mines: seq<Entity>)
    ensures Any(v.neutrals, IsTree) <==> exists e :: e in v.neutrals && e.typeName == Tree && HasLeft(e)
    ensures Any(v.neutrals, IsSeam) <==> exists e :: e in v.neutrals && e.typeName == GoldMine && HasLeft(e)
    ensures Any(mines, StandingSource) <==> exists e :: e in mines && !e.rising && HasLeft(e)
  {
    AnyIn(v.neutrals, IsTree);
    AnyIn(v.neutrals, IsSeam);
    AnyIn(mines, StandingSource);
  }

  lemma AnyIn(entities: seq<Entity>, accept: Entity -> bool)
    ensures Any(entities, accept) <==> exists e :: e in entities && accept(e)
  {
    if e :| e in entities && accept(e) {
      var i :| 0 <= i < |entities| && entities[i] == e;
    }
  }

  /** What every assignment of a think is: a worker in sight other than the one
      just sent to build, sent to its nearest tree or, idle, to its nearest seam. */
  ghost predicate Sensible(v: View, workers: seq<Entity>, builderId: Option<nat>, builder: Option<nat>, a: Assignment) {
    && a.worker in workers && (Free(a.worker, builderId) || Pullable(a.worker, builderId, builder))
    && (if a.target.typeName == Tree then IsNearest(a.worker, v.neutrals, IsTree, Some(a.target))
        else a.worker.idle && IsNearest(a.worker, v.neutrals, IsSeam, Some(a.target)))
  }

  ghost predicate SentOnce(sent: seq<Assignment>) {
    forall i, j | 0 <= i < j < |sent| :: sent[i].worker.id != sent[j].worker.id
  }

  ghost predicate OneToWood(sent: seq<Assignment>) {
    forall i, j | 0 <= i < j < |sent| :: !(sent[i].target.typeName == Tree && sent[j].target.typeName == Tree)
  }

  ghost predicate SentOut(sent: seq<Assignment>, w: Entity) {
    exists i :: 0 <= i < |sent| && sent[i].worker == w
  }

  ghost predicate ToWood(sent: seq<Assignment>, id: Option<nat>) {
    exists i :: 0 <= i < |sent| && sent[i].target.typeName == Tree && Some(sent[i].worker.id) == id
  }

  /** Where an idle worker goes: to wood while it is needed and there is any, else to gold. */
  method Errand(v: View, w: Entity, needWood: bool) returns (target: Option<Entity>)
    ensures needWood && Any(v.neutrals, IsTree) ==>
              target.Some? && target.value.typeName == Tree && IsNearest(w, v.neutrals, IsTree, target)
    ensures !(needWood && Any(v.neutrals, IsTree)) ==>
              (target.Some? ==> target.value.typeName != Tree) && IsNearest(w, v.neutrals, IsSeam, target)
    ensures Any(v.neutrals, IsSeam) ==> target.Some?
  {
    target := None;
    if needWood {
      target := Nearest(w, v.neutrals, IsTree);
    }
    if target.None? {
      target := Nearest(w, v.neutrals, IsSeam);
    }
  }

  /** The state of the idle round after some workers: who was sent, and the wood. */
  ghost predicate RoundOf(v: View, workers: seq<Entity>, builderId: Option<nat>, wanted: bool, need: bool,
                          sent: seq<Assignment>, before: Option<nat>, woodWorker: Option<nat>)
  {
    && SentOnce(sent) && OneToWood(sent)
    && (forall a | a in sent :: Sensible(v, workers, builderId, None, a) && a.worker.idle)
    && (need ==> wanted && sent == [] && forall w | w in workers :: !Free(w, builderId))
    && (!wanted ==> forall a | a in sent :: a.target.typeName != Tree)
    && (woodWorker == before || (wanted && ToWood(sent, woodWorker)))
    && (wanted && !need && Any(v.neutrals, IsTree) ==> ToWood(sent, woodWorker))
    && (need ==> woodWorker == before)
    && (Any(v.neutrals, IsSeam) ==>
          forall w | w in workers && Free(w, builderId) :: SentOut(sent, w))
  }

  lemma RoundPasses(v: View, workers: seq<Entity>, builderId: Option<nat>, wanted: bool, need: bool,
                    sent: seq<Assignment>, before: Option<nat>, woodWorker: Option<nat>, w: Entity)
    requires RoundOf(v, workers, builderId, wanted, need, sent, before, woodWorker)
    requires !Free(w, builderId)
    ensures RoundOf(v, workers + [w], builderId, wanted, need, sent, before, woodWorker)
  {
    hide IsNearest, ToWood, OneToWood, SentOnce;
  }

  lemma RoundIdles(v: View, workers: seq<Entity>, builderId: Option<nat>, wanted: bool, need: bool,
                   sent: seq<Assignment>, before: Option<nat>, woodWorker: Option<nat>, w: Entity)
    requires RoundOf(v, workers, builderId, wanted, need, sent, before, woodWorker)
    requires !(need && Any(v.neutrals, IsTree)) && !Any(v.neutrals, IsSeam)
    ensures RoundOf(v, workers + [w], builderId, wanted, false, sent, before, woodWorker)
  {
    hide IsNearest, ToWood, OneToWood, SentOnce;
  }

  lemma SensibleGrows(v: View, workers: seq<Entity>, builderId: Option<nat>, a: Assignment, w: Entity)
    requires Sensible(v, workers, builderId, None, a)
    ensures Sensible(v, workers + [w], builderId, None, a)
  {
  }

  lemma SentGrows(sent: seq<Assignment>, a: Assignment, w: Entity, id: Option<nat>)
    ensures SentOut(sent, w) || a.worker == w ==> SentOut(sent + [a], w)
    ensures ToWood(sent, id) || (a.target.typeName == Tree && Some(a.worker.id) == id) ==> ToWood(sent + [a], id)
  {
    var next := sent + [a];
    assert next[|sent|] == a;
    if SentOut(sent, w) {
      var i :| 0 <= i < |sent| && sent[i].worker == w;
      assert next[i] == sent[i];
    }
    if ToWood(sent, id) {
      var i :| 0 <= i < |sent| && sent[i].target.typeName == Tree && Some(sent[i].worker.id) == id;
      assert next[i] == sent[i];
    }
  }

  lemma SendsApart(sent: seq<Assignment>, a: Assignment)
    requires SentOnce(sent) && OneToWood(sent)
    requires forall b | b in sent :: b.worker.id != a.worker.id
    requires a.target.typeName == Tree ==> forall b | b in sent :: b.target.typeName != Tree
    ensures SentOnce(sent + [a]) && OneToWood(sent + [a])
  {
  }

  lemma RoundSends(v: View, workers: seq<Entity>, builderId: Option<nat>, wanted: bool, need: bool,
                   sent: seq<Assignment>, before: Option<nat>, woodWorker: Option<nat>, w: Entity, target: Entity)
    requires RoundOf(v, workers, builderId, wanted, need, sent, before, woodWorker)
    requires Free(w, builderId) && forall u | u in workers :: u.id != w.id
    requires if need && Any(v.neutrals, IsTree)
             then target.typeName == Tree && IsNearest(w, v.neutrals, IsTree, Some(target))
             else target.typeName != Tree && IsNearest(w, v.neutrals, IsSeam, Some(target))
    ensures RoundOf(v, workers + [w], builderId, wanted, false, sent + [Assignment(w, target)], before,
                    if need && Any(v.neutrals, IsTree) then Some(w.id) else woodWorker)
  {
    hide IsNearest, Any, SentOnce, OneToWood, SentOut, ToWood;
    var a := Assignment(w, target);
    assert Sensible(v, workers + [w], builderId, None, a);
    forall b | b in sent
      ensures Sensible(v, workers + [w], builderId, None, b) && b.worker.id != w.id
    {
      SensibleGrows(v, workers, builderId, b, w);
    }
    hide Sensible, Free;
    SendsApart(sent, a);
    SentGrows(sent, a, w, woodWorker);
    SentGrows(sent, a, w, Some(w.id));
    forall u | u in workers + [w] && SentOut(sent, u)
      ensures SentOut(sent + [a], u)
    {
      SentGrows(sent, a, u, None);
    }
  }

  lemma SendsNext(sent: seq<Assignment>, a: Assignment)
    ensures Sends(sent + [a]) == Sends(sent) + [Select(a.worker.id), Send(a.target.id)]
  {
    assert (sent + [a])[..|sent|] == sent;
  }

  /** Sends every idle worker on its errand, the first to wood while it is needed. */
  method AssignIdle(turn: Turn, state: AiState, workers: seq<Entity>, wanted: bool, builderId: Option<nat>)
    returns (need: bool, ghost sent: seq<Assignment>)
    requires DistinctIds(workers)
    modifies turn`commands, state`woodWorker
    ensures turn.Books() == old(turn.Books())
    ensures turn.commands == old(turn.commands) + Sends(sent)
    ensures RoundOf(turn.view, workers, builderId, wanted, need, sent, old(state.woodWorker), state.woodWorker)
  {
    hide *;
    need := wanted;
    sent := [];
    assert workers[..|workers|] == workers;
    assert turn.commands == old(turn.commands) + Sends(sent) && RoundOf(turn.view, workers[..0], builderId, wanted, need, sent, old(state.woodWorker), state.woodWorker) by {
      SendsNone();
      RoundStarts(turn.view, builderId, wanted, state.woodWorker);
    }
    for i := 0 to |workers|
      invariant turn.Books() == old(turn.Books()) && turn.commands == old(turn.commands) + Sends(sent)
      invariant RoundOf(turn.view, workers[..i], builderId, wanted, need, sent, old(state.woodWorker), state.woodWorker)
    {
      var w := workers[i];
      assert workers[..i + 1] == workers[..i] + [w];
      FreeIs(w, builderId);
      DistinctUpTo(workers, i);
      if w.idle && !w.hidden && Some(w.id) != builderId {
        var target := Errand(turn.view, w, need);
        if target.Some? {
          turn.SendWorker(w, target.value);
          SendsNext(sent, Assignment(w, target.value));
          RoundSends(turn.view, workers[..i], builderId, wanted, need, sent, old(state.woodWorker), state.woodWorker, w, target.value);
          sent := sent + [Assignment(w, target.value)];
          if need && target.value.typeName == Tree {
            state.woodWorker := Some(w.id);
          }
        } else {
          RoundIdles(turn.view, workers[..i], builderId, wanted, need, sent, old(state.woodWorker), state.woodWorker, w);
        }
        need := false;
      } else {
        RoundPasses(turn.view, workers[..i], builderId, wanted, need, sent, old(state.woodWorker), state.woodWorker, w);
      }
    }
  }

  lemma FreeIs(w: Entity, builderId: Option<nat>)
    ensures Free(w, builderId) <==> w.idle && !w.hidden && Some(w.id) != builderId
  {
  }

  lemma DistinctUpTo(workers: seq<Entity>, i: nat)
    requires i < |workers| && DistinctIds(workers)
    ensures forall u | u in workers[..i] :: u.id != workers[i].id
  {
  }

  lemma SendsNone()
    ensures Sends([]) == []
  {
  }

  lemma RoundStarts(v: View, builderId: Option<nat>, wanted: bool, woodWorker: Option<nat>)
    ensures RoundOf(v, [], builderId, wanted, wanted, [], woodWorker, woodWorker)
  {
  }

  /**
   What a round of assignments comes to. No worker is sent twice and at most one
   to a tree; each goes where it should. The wood worker is remembered while it
   stays busy; no one is sent for wood it covers or no one asks for, and someone
   is for any other wood there is, if anyone in sight can go. A busy worker goes
   to wood alone, only when none is idle, and loaded only when none is empty. No
   idle worker is left without gold while there is some.
   */
  ghost predicate Assigned(v: View, workers: seq<Entity>, needWood: bool, builderId: Option<nat>,
                           remembered: Option<nat>, builder: Option<nat>,
                           sent: seq<Assignment>, woodWorker: Option<nat>)
  {
    && SentOnce(sent) && OneToWood(sent)
    && (forall a | a in sent :: Sensible(v, workers, builderId, builder, a))
    && (if !needWood || Busy(workers, remembered)
        then woodWorker == (if Busy(workers, remembered) then remembered else None)
             && forall a | a in sent :: a.target.typeName != Tree
        else (woodWorker == None || ToWood(sent, woodWorker))
             && (Any(v.neutrals, IsTree)
                 && (exists w :: w in workers && (Free(w, builderId) || Pullable(w, builderId, builder)))
                 ==> ToWood(sent, woodWorker)))
    && (forall a | a in sent && !a.worker.idle ::
          && a.target.typeName == Tree
          && (forall w | w in workers :: !Free(w, builderId))
          && (a.worker.carrying ==> forall w | w in workers && Pullable(w, builderId, builder) :: w.carrying))
    && (Any(v.neutrals, IsSeam) ==> forall w | w in workers && Free(w, builderId) :: SentOut(sent, w))
  }

  lemma RoundIsAssigned(v: View, workers: seq<Entity>, needWood: bool, builderId: Option<nat>, remembered: Option<nat>,
                        builder: Option<nat>, need: bool, sent: seq<Assignment>, woodWorker: Option<nat>)
    requires var covered := Busy(workers, remembered);
             RoundOf(v, workers, builderId, needWood && !covered, need, sent, if covered then remembered else None, woodWorker)
    requires need ==> !Any(v.neutrals, IsTree) || forall w | w in workers :: !Pullable(w, builderId, builder)
    ensures Assigned(v, workers, needWood, builderId, remembered, builder, sent, woodWorker)
  {
    hide IsNearest, Any, SentOnce, OneToWood, SentOut, ToWood, Busy;
  }

  lemma PullIsAssigned(v: View, workers: seq<Entity>, needWood: bool, builderId: Option<nat>, remembered: Option<nat>,
                       builder: Option<nat>, sent: seq<Assignment>, woodWorker: Option<nat>, pulled: Entity, target: Entity)
    requires var covered := Busy(workers, remembered);
             RoundOf(v, workers, builderId, needWood && !covered, true, sent, if covered then remembered else None, woodWorker)
    requires pulled in workers && Pullable(pulled, builderId, builder)
    requires pulled.carrying ==> forall w | w in workers && Pullable(w, builderId, builder) :: w.carrying
    requires target.typeName == Tree && IsNearest(pulled, v.neutrals, IsTree, Some(target))
    ensures Assigned(v, workers, needWood, builderId, remembered, builder, sent + [Assignment(pulled, target)], Some(pulled.id))
  {
    hide IsNearest, Any, Busy, SentOut, RoundOf, SentOnce, OneToWood, ToWood;
    var a := Assignment(pulled, target);
    NoneWasFree(v, workers, builderId, needWood && !Busy(workers, remembered), sent,
                if Busy(workers, remembered) then remembered else None, woodWorker);
    assert Sensible(v, workers, builderId, builder, a);
    assert sent + [a] == [a];
    OneAlone(a);
    hide Free, Sensible;
  }

  lemma NoneWasFree(v: View, workers: seq<Entity>, builderId: Option<nat>, wanted: bool, sent: seq<Assignment>,
                    before: Option<nat>, woodWorker: Option<nat>)
    requires RoundOf(v, workers, builderId, wanted, true, sent, before, woodWorker)
    ensures sent == [] && wanted && forall w | w in workers :: !Free(w, builderId)
  {
    hide IsNearest, Any, SentOut, SentOnce, OneToWood, ToWood;
  }

  lemma OneAlone(a: Assignment)
    ensures SentOnce([a]) && OneToWood([a]) && (a.target.typeName == Tree ==> ToWood([a], Some(a.worker.id)))
  {
    assert [a][0] == a;
  }

  /**
   Idle workers gather gold and one fetches wood while it is needed: an idle one
   if there is any, else a busy worker that is not the remembered builder, one
   without a load first.
   */
  method AssignHarvesters(turn: Turn, state: AiState, workers: seq<Entity>, needWood: bool, builderId: Option<nat>)
    returns (ghost sent: seq<Assignment>)
    requires DistinctIds(workers)
    modifies turn`commands, state`woodWorker, state`builder
    ensures turn.Books() == old(turn.Books())
    ensures turn.commands == old(turn.commands) + Sends(sent)
    ensures state.builder == if Busy(workers, old(state.builder)) then old(state.builder) else None
    ensures state.builder.Some? ==> exists w :: w in workers && w.id == state.builder.value && !w.idle
    ensures forall a | a in sent ::
              !a.worker.hidden && Some(a.worker.id) != builderId && (a.worker.idle || Some(a.worker.id) != state.builder)
    ensures (exists e :: e in turn.view.neutrals && e.typeName == GoldMine && HasLeft(e)) ==>
              forall w | w in workers && w.idle && !w.hidden && Some(w.id) != builderId :: exists a :: a in sent && a.worker == w
    ensures needWood && (exists e :: e in turn.view.neutrals && e.typeName == Tree && HasLeft(e))
            && !(exists w :: w in workers && Some(w.id) == old(state.woodWorker) && !w.idle)
            && (exists w :: w in workers && !w.hidden && Some(w.id) != builderId && (w.idle || Some(w.id) != state.builder))
            ==> exists a :: a in sent && a.target.typeName == Tree
    ensures Assigned(turn.view, workers, needWood, builderId, old(state.woodWorker), state.builder, sent, state.woodWorker)
    ensures Own(turn.view, workers) && Orderly(turn.view, old(turn.commands)) ==> Orderly(turn.view, turn.commands)
  {
    hide *;
    var woodCovered, builderPresent := Busy(workers, state.woodWorker), Busy(workers, state.builder);
    if !woodCovered {
      state.woodWorker := None;
    }
    if !builderPresent {
      state.builder := None;
    }
    var need;
    need, sent := AssignIdle(turn, state, workers, needWood && !woodCovered, builderId);
    if need {
      sent := PullOne(turn, state, workers, needWood, builderId, old(state.woodWorker), sent);
    } else {
      RoundIsAssigned(turn.view, workers, needWood, builderId, old(state.woodWorker), state.builder, need, sent, state.woodWorker);
    }
    if Own(turn.view, workers) {
      AssignedOrderly(turn.view, old(turn.commands), workers, needWood, builderId, old(state.woodWorker), state.builder,
                      sent, state.woodWorker);
    }
    BusyOne(workers, state.builder);
    AssignedSpares(turn.view, workers, needWood, builderId, old(state.woodWorker), state.builder, sent, state.woodWorker);
  }

  lemma BusyOne(workers: seq<Entity>, id: Option<nat>)
    ensures Busy(workers, id) ==> id.Some? && exists w :: w in workers && w.id == id.value && !w.idle
  {
  }

  lemma AssignedSpares(v: View, workers: seq<Entity>, needWood: bool, builderId: Option<nat>, remembered: Option<nat>,
                       builder: Option<nat>, sent: seq<Assignment>, woodWorker: Option<nat>)
    requires Assigned(v, workers, needWood, builderId, remembered, builder, sent, woodWorker)
    ensures forall a | a in sent ::
              !a.worker.hidden && Some(a.worker.id) != builderId && (a.worker.idle || Some(a.worker.id) != builder)
    ensures (exists e :: e in v.neutrals && e.typeName == GoldMine && HasLeft(e)) ==>
              forall w | w in workers && w.idle && !w.hidden && Some(w.id) != builderId :: exists a :: a in sent && a.worker == w
    ensures needWood && (exists e :: e in v.neutrals && e.typeName == Tree && HasLeft(e))
            && !(exists w :: w in workers && Some(w.id) == remembered && !w.idle)
            && (exists w :: w in workers && !w.hidden && Some(w.id) != builderId && (w.idle || Some(w.id) != builder))
            ==> exists a :: a in sent && a.target.typeName == Tree
  {
    hide IsNearest, Any, SentOnce, OneToWood, SentOut, ToWood, Busy;
    SourcesThere(v, []);
    BusyOne(workers, remembered);
    SentTells(sent, woodWorker);
  }

  lemma SentTells(sent: seq<Assignment>, id: Option<nat>)
    ensures forall w | SentOut(sent, w) :: exists a :: a in sent && a.worker == w
    ensures ToWood(sent, id) ==> exists a :: a in sent && a.target.typeName == Tree
  {
    forall w | SentOut(sent, w)
      ensures exists a :: a in sent && a.worker == w
    {
      var i :| 0 <= i < |sent| && sent[i].worker == w;
      assert sent[i] in sent;
    }
    if ToWood(sent, id) {
      var i :| 0 <= i < |sent| && sent[i].target.typeName == Tree && Some(sent[i].worker.id) == id;
      assert sent[i] in sent;
    }
  }

  /** Turns a busy worker to wood no idle one was there to take. */
  method PullOne(turn: Turn, state: AiState, workers: seq<Entity>, needWood: bool, builderId: Option<nat>,
                 ghost remembered: Option<nat>, ghost idle: seq<Assignment>)
    returns (ghost sent: seq<Assignment>)
    requires var covered := Busy(workers, remembered);
             RoundOf(turn.view, workers, builderId, needWood && !covered, true, idle,
                     if covered then remembered else None, state.woodWorker)
    modifies turn`commands, state`woodWorker
    ensures turn.Books() == old(turn.Books())
    ensures idle <= sent && turn.commands == old(turn.commands) + Sends(sent[|idle|..])
    ensures Sends(sent) == Sends(idle) + Sends(sent[|idle|..])
    ensures Assigned(turn.view, workers, needWood, builderId, remembered, state.builder, sent, state.woodWorker)
  {
    hide *;
    sent := idle;
    SendsNone();
    var pulled := PulledAmong(workers, builderId, state.builder);
    var target: Option<Entity> := None;
    if pulled.Some? {
      target := NearestTree(turn.view, pulled.value);
    }
    if target.None? {
      RoundIsAssigned(turn.view, workers, needWood, builderId, remembered, state.builder, true, sent, state.woodWorker);
      assert sent[|idle|..] == [];
    } else {
      var a := Assignment(pulled.value, target.value);
      PullIsAssigned(turn.view, workers, needWood, builderId, remembered, state.builder, sent,
                     state.woodWorker, pulled.value, target.value);
      turn.SendWorker(pulled.value, target.value);
      SendsNext(sent, a);
      SendsNext([], a);
      assert [] + [a] == [a];
      sent := sent + [a];
      assert sent[|idle|..] == [a];
      state.woodWorker := Some(pulled.value.id);
    }
  }

  method NearestTree(v: View, w: Entity) returns (target: Option<Entity>)
    ensures IsNearest(w, v.neutrals, IsTree, target)
    ensures target.Some? ==> target.value.typeName == Tree
    ensures target.Some? <==> Any(v.neutrals, IsTree)
  {
    target := Nearest(w, v.neutrals, IsTree);
  }

  /** The busy worker to turn to wood: the first without a load, else the first. */
  method PulledAmong(workers: seq<Entity>, builderId: Option<nat>, builder: Option<nat>) returns (pulled: Option<Entity>)
    ensures pulled.None? <==> forall w | w in workers :: !Pullable(w, builderId, builder)
    ensures pulled.Some? ==> pulled.value in workers && Pullable(pulled.value, builderId, builder)
    ensures pulled.Some? && pulled.value.carrying ==>
              forall w | w in workers && Pullable(w, builderId, builder) :: w.carrying
    ensures pulled.Some? ==>
              exists i :: 0 <= i < |workers| && workers[i] == pulled.value
                          && forall j | 0 <= j < i && Pullable(workers[j], builderId, builder) ::
                               workers[j].carrying && !pulled.value.carrying
  {
    pulled := None;
    ghost var at := 0;
    for i := 0 to |workers|
      invariant pulled.Some? ==>
          && 0 <= at < i && workers[at] == pulled.value && pulled.value.carrying
          && forall j | 0 <= j < at :: !Pullable(workers[j], builderId, builder)
      invariant pulled.None? <==> forall w | w in workers[..i] :: !Pullable(w, builderId, builder)
      invariant pulled.Some? ==> pulled.value in workers[..i] && Pullable(pulled.value, builderId, builder)
      invariant forall w | w in workers[..i] && Pullable(w, builderId, builder) :: w.carrying
    {
      var w := workers[i];
      assert workers[..i + 1] == workers[..i] + [w];
      if Pullable(w, builderId, builder) {
        if !w.carrying {
          assert forall j | 0 <= j < i :: workers[j] in workers[..i];
          return Some(w);
        }
        if pulled.None? {
          pulled, at := Some(w), i;
          assert forall j | 0 <= j < i :: workers[j] in workers[..i];
        }
      }
    }
  }

  // ─── Where a race's workers are bound to a mine ───────────────────────────

  /** Where one of them is sent: to its nearest tree, or its nearest standing source. */
  ghost predicate Sourced(v: View, mines: seq<Entity>, a: Assignment) {
    if a.target.typeName == Tree then IsNearest(a.worker, v.neutrals, IsTree, Some(a.target))
    else IsNearest(a.worker, mines, StandingSource, Some(a.target))
  }

  ghost predicate Cutting(sent: seq<Assignment>) {
    exists i :: 0 <= i < |sent| && sent[i].target.typeName == Tree
  }

  ghost predicate AnyFree(workers: seq<Entity>, builderId: Option<nat>) {
    exists w :: w in workers && Free(w, builderId)
  }

  /**
   What plain sending comes to. Only free workers go, to wood only while it is
   needed, and wood that is needed and there is cut whenever anyone is free: by
   one of them, or by every one while `keepCutting`. No free worker is left
   without a source while one stands.
   */
  ghost predicate Gathering(v: View, workers: seq<Entity>, builderId: Option<nat>, needWood: bool, keepCutting: bool,
                            mines: seq<Entity>, sent: seq<Assignment>)
  {
    var cut := needWood && Any(v.neutrals, IsTree);
    && (forall a | a in sent :: a.worker in workers && Free(a.worker, builderId) && Sourced(v, mines, a))
    && (!cut ==> !Cutting(sent))
    && (!keepCutting ==> OneToWood(sent))
    && (cut && AnyFree(workers, builderId) ==> Cutting(sent))
    && (cut && keepCutting ==> forall a | a in sent :: a.target.typeName == Tree)
    && ((cut && keepCutting) || Any(mines, StandingSource) ==>
          forall w | w in workers && Free(w, builderId) :: SentOut(sent, w))
  }

  /** Whether the next free worker is still to try for wood. */
  ghost predicate StillNeeds(workers: seq<Entity>, builderId: Option<nat>, needWood: bool, keepCutting: bool) {
    needWood && (keepCutting || !AnyFree(workers, builderId))
  }

  lemma GatherPasses(v: View, workers: seq<Entity>, builderId: Option<nat>, needWood: bool, keepCutting: bool,
                     mines: seq<Entity>, sent: seq<Assignment>, w: Entity)
    requires Gathering(v, workers, builderId, needWood, keepCutting, mines, sent)
    requires !Free(w, builderId)
             || !((StillNeeds(workers, builderId, needWood, keepCutting) && Any(v.neutrals, IsTree)) || Any(mines, StandingSource))
    ensures Gathering(v, workers + [w], builderId, needWood, keepCutting, mines, sent)
    ensures AnyFree(workers + [w], builderId) <==> AnyFree(workers, builderId) || Free(w, builderId)
  {
    hide IsNearest, Any, OneToWood, SentOut, Cutting, Sourced;
    AnyFreeGrows(workers, builderId, w);
  }

  lemma AnyFreeGrows(workers: seq<Entity>, builderId: Option<nat>, w: Entity)
    ensures AnyFree(workers + [w], builderId) <==> AnyFree(workers, builderId) || Free(w, builderId)
  {
    assert w in workers + [w];
    assert forall u | u in workers :: u in workers + [w];
  }

  lemma CuttingGrows(sent: seq<Assignment>, a: Assignment)
    ensures Cutting(sent + [a]) <==> Cutting(sent) || a.target.typeName == Tree
    ensures !Cutting(sent) <==> forall b | b in sent :: b.target.typeName != Tree
    ensures OneToWood(sent) && (a.target.typeName == Tree ==> !Cutting(sent)) ==> OneToWood(sent + [a])
  {
    assert (sent + [a])[|sent|] == a && forall i | 0 <= i < |sent| :: (sent + [a])[i] == sent[i];
  }

  lemma GatherSends(v: View, workers: seq<Entity>, builderId: Option<nat>, needWood: bool, keepCutting: bool,
                    mines: seq<Entity>, sent: seq<Assignment>, a: Assignment)
    requires Gathering(v, workers, builderId, needWood, keepCutting, mines, sent)
    requires Free(a.worker, builderId) && Sourced(v, mines, a)
    requires (a.target.typeName == Tree)
             == (StillNeeds(workers, builderId, needWood, keepCutting) && Any(v.neutrals, IsTree))
    ensures Gathering(v, workers + [a.worker], builderId, needWood, keepCutting, mines, sent + [a])
    ensures AnyFree(workers + [a.worker], builderId)
  {
    hide IsNearest, Any, SentOut, Sourced, Cutting, OneToWood;
    AnyFreeGrows(workers, builderId, a.worker);
    CuttingGrows(sent, a);
    assert !AnyFree(workers, builderId) ==> sent == [] by {
      assert sent != [] ==> sent[0] in sent;
    }
    forall w | w in workers + [a.worker] && (SentOut(sent, w) || w == a.worker)
      ensures SentOut(sent + [a], w)
    {
      SentGrows(sent, a, w, None);
    }
    hide Free, AnyFree;
  }

  /** Where a free worker goes: to wood if it tries for it and there is any, else to a source. */
  method Outing(v: View, w: Entity, tries: bool, mines: seq<Entity>) returns (target: Option<Entity>)
    requires forall m | m in mines :: m.typeName != Tree
    ensures target.Some? <==> (tries && Any(v.neutrals, IsTree)) || Any(mines, StandingSource)
    ensures target.Some? ==>
              && Sourced(v, mines, Assignment(w, target.value))
              && (target.value.typeName == Tree <==> tries && Any(v.neutrals, IsTree))
  {
    target := None;
    if tries {
      target := Nearest(w, v.neutrals, IsTree);
    }
    if target.None? {
      target := Nearest(w, mines, StandingSource);
    }
  }

  /**
   Idle workers in sight other than the one just sent to build go to wood while
   it is needed — one of them, or all while `keepCutting` — and else to the
   nearest standing source of theirs that has something left.
   */
  method SendIdle(turn: Turn, workers: seq<Entity>, builderId: Option<nat>, needWood: bool, keepCutting: bool, mines: seq<Entity>)
    returns (ghost sent: seq<Assignment>)
    requires forall m | m in mines :: m.typeName != Tree
    modifies turn`commands
    ensures turn.Books() == old(turn.Books())
    ensures turn.commands == old(turn.commands) + Sends(sent)
    ensures Gathering(turn.view, workers, builderId, needWood, keepCutting, mines, sent)
    ensures forall a | a in sent :: a.worker in workers && a.worker.idle && !a.worker.hidden && Some(a.worker.id) != builderId
    ensures (exists m :: m in mines && !m.rising && HasLeft(m)) ==>
              forall w | w in workers && w.idle && !w.hidden && Some(w.id) != builderId :: exists a :: a in sent && a.worker == w
    ensures Own(turn.view, workers) && Own(turn.view, mines) && Orderly(turn.view, old(turn.commands)) ==> Orderly(turn.view, turn.commands)
  {
    hide Tally, Amount, MorphAmount, IsNearest, Distance, Sends, Gathering, AnyFree, Any, Sourced, Orderly, Own, Lawful, Turn.Books;
    var need := needWood;
    sent := [];
    assert turn.commands == old(turn.commands) + Sends(sent) by {
      SendsNone();
    }
    GatherStarts(turn.view, builderId, needWood, keepCutting, mines);
    assert workers[..|workers|] == workers && workers[..0] == [];
    for i := 0 to |workers|
      invariant turn.Books() == old(turn.Books()) && turn.commands == old(turn.commands) + Sends(sent)
      invariant need == StillNeeds(workers[..i], builderId, needWood, keepCutting)
      invariant Gathering(turn.view, workers[..i], builderId, needWood, keepCutting, mines, sent)
    {
      var w := workers[i];
      assert workers[..i + 1] == workers[..i] + [w];
      if w.idle && !w.hidden && Some(w.id) != builderId {
        var target := Outing(turn.view, w, need, mines);
        if need {
          need := keepCutting;
        }
        if target.Some? {
          turn.SendWorker(w, target.value);
          SendsNext(sent, Assignment(w, target.value));
          GatherSends(turn.view, workers[..i], builderId, needWood, keepCutting, mines, sent, Assignment(w, target.value));
          sent := sent + [Assignment(w, target.value)];
        } else {
          GatherPasses(turn.view, workers[..i], builderId, needWood, keepCutting, mines, sent, w);
        }
      } else {
        GatherPasses(turn.view, workers[..i], builderId, needWood, keepCutting, mines, sent, w);
      }
    }
    GatheringTells(turn.view, workers, builderId, needWood, keepCutting, mines, sent);
    if Own(turn.view, workers) && Own(turn.view, mines) {
      GatheredOrderly(turn.view, old(turn.commands), workers, builderId, needWood, keepCutting, mines, sent);
    }
  }

  lemma GatheringTells(v: View, workers: seq<Entity>, builderId: Option<nat>, needWood: bool, keepCutting: bool,
                       mines: seq<Entity>, sent: seq<Assignment>)
    requires Gathering(v, workers, builderId, needWood, keepCutting, mines, sent)
    ensures forall a | a in sent :: a.worker in workers && a.worker.idle && !a.worker.hidden && Some(a.worker.id) != builderId
    ensures (exists m :: m in mines && !m.rising && HasLeft(m)) ==>
              forall w | w in workers && w.idle && !w.hidden && Some(w.id) != builderId :: exists a :: a in sent && a.worker == w
  {
    hide IsNearest, Any, OneToWood, SentOut, Cutting, Sourced, AnyFree;
    SourcesThere(v, mines);
    SentTells(sent, None);
  }

  lemma GatherStarts(v: View, builderId: Option<nat>, needWood: bool, keepCutting: bool, mines: seq<Entity>)
    ensures Gathering(v, [], builderId, needWood, keepCutting, mines, [])
    ensures !AnyFree([], builderId)
  {
  }

  /** The gold seam nearest the hall, if there is a hall. */
  method SeamNear(v: View, hall: Option<Entity>) returns (seam: Option<Entity>)
    ensures hall.None? ==> seam == None
    ensures hall.Some? ==> IsNearest(hall.value, v.neutrals, IsSeam, seam)
    ensures seam.Some? <==> hall.Some? && Any(v.neutrals, IsSeam)
    ensures seam.Some? ==> MayHold(v, seam.value.x, seam.value.y)
  {
    seam := None;
    if hall.Some? {
      seam := Nearest(hall.value, v.neutrals, IsSeam);
      if seam.Some? {
        NearestAmong(hall.value, v.neutrals, IsSeam, seam.value);
      }
    }
  }

  /** Whether, the deadline aside, a structure over a seam is sent for. */
  ghost predicate SeamReady(c: Content, v: View, purse: Purse, seam: bool, workers: seq<Entity>, t: TypeName) {
    seam && !AnyRising(v.mine) && workers != [] && Affords(c, purse.gold, purse.wood, t)
  }

  /**
   Raises a mine or refinery over a gold seam, on the seam's own cells, under
   the deadline the ring of sites keeps.
   */
  method RaiseOverSeam(turn: Turn, state: AiState, workers: seq<Entity>, seam: Option<Entity>, t: TypeName)
    returns (builderId: Option<nat>)
    modifies turn`commands, state`buildDeadline
    ensures turn.Left() == old(turn.Left())
    ensures Sited(turn.content, turn.view, old(turn.Books()), turn.Books(), old(state.buildDeadline), state.buildDeadline, Some(t),
                  if builderId.Some? then Some(t) else None,
                  SeamReady(turn.content, turn.view, old(turn.Left()), seam.Some?, workers, t))
    ensures (seam.Some? ==> MayHold(turn.view, seam.value.x, seam.value.y)) ==>
              Own(turn.view, workers) && Orderly(turn.view, old(turn.commands)) ==> Orderly(turn.view, turn.commands)
    ensures turn.commands == old(turn.commands)
              + (if builderId.Some? then [Build(BuilderAmong(workers).value.id, t, seam.value.x, seam.value.y)] else [])
  {
    hide Tally, CostOf, Sited, AnyRising, BuilderAmong, Orderly, MayHold;
    builderId := None;
    SitedNone(turn.content, turn.view, turn.Books(), state.buildDeadline, Some(t),
              SeamReady(turn.content, turn.view, turn.Left(), seam.Some?, workers, t));
    if seam.Some? && !AnyRising(turn.view.mine)
       && (state.buildDeadline.None? || turn.view.tick >= state.buildDeadline.value)
       && Affords(turn.content, turn.gold, turn.wood, t) {
      var builder := BuilderAmong(workers);
      if builder.Some? {
        turn.Found(state, builder.value, t, seam.value.x, seam.value.y);
        builderId := Some(builder.value.id);
      }
    }
  }

  /** Whether a ghoul musters: it carries no load, and wood that is needed does not
      hold it, as it holds the cutter and whoever could cut before one was found. */
  ghost predicate Musters(ghouls: seq<Entity>, needWood: bool, cutter: Option<nat>, i: int)
    requires 0 <= i < |ghouls|
  {
    !ghouls[i].carrying && !(needWood && AtEase(ghouls[i]) && (cutter.None? || i <= cutter.value))
  }

  /** Those of the first `n` ghouls that muster, in order. */
  ghost function Mustered(ghouls: seq<Entity>, needWood: bool, cutter: Option<nat>, n: nat): seq<Entity>
    requires n <= |ghouls|
  {
    if n == 0 then []
    else Mustered(ghouls, needWood, cutter, n - 1) + if Musters(ghouls, needWood, cutter, n - 1) then [ghouls[n - 1]] else []
  }

  /** Finding a cutter changes nothing about the ghouls before it. */
  lemma {:induction false} CutterMusters(ghouls: seq<Entity>, needWood: bool, k: nat, n: nat)
    requires n <= k <= |ghouls|
    ensures Mustered(ghouls, needWood, Some(k), n) == Mustered(ghouls, needWood, None, n)
  {
    if n > 0 {
      CutterMusters(ghouls, needWood, k, n - 1);
    }
  }

  lemma {:induction false} MusteredAmong(ghouls: seq<Entity>, needWood: bool, cutter: Option<nat>, n: nat)
    requires n <= |ghouls|
    ensures forall g | g in Mustered(ghouls, needWood, cutter, n) :: g in ghouls
  {
    if n > 0 {
      MusteredAmong(ghouls, needWood, cutter, n - 1);
    }
  }

  /** The first ghoul at ease in sight goes to its nearest tree while wood is
      needed and there is any. */
  ghost predicate Cut(v: View, ghouls: seq<Entity>, needWood: bool, cutter: Option<nat>, orders: seq<Command>) {
    match cutter
    case None => orders == [] && (needWood && Any(v.neutrals, IsTree) ==> forall g | g in ghouls :: !AtEase(g))
    case Some(k) =>
      && needWood && k < |ghouls| && AtEase(ghouls[k]) && (forall g | g in ghouls[..k] :: !AtEase(g))
      && exists tree :: IsNearest(ghouls[k], v.neutrals, IsTree, Some(tree)) && orders == [Select(ghouls[k].id), Send(tree.id)]
  }

  lemma CutterNamesMine(v: View, ghouls: seq<Entity>, g: Entity, tree: Entity)
    requires g in ghouls && AtEase(g) && IsNearest(g, v.neutrals, IsTree, Some(tree))
    ensures Own(v, ghouls) ==> MineInSight(v, g.id) && Lawful(v, Send(tree.id))
  {
    NearestAmong(g, v.neutrals, IsTree, tree);
  }

  method SendGhouls(turn: Turn, ghouls: seq<Entity>, needWood: bool) returns (fighters: seq<Entity>, ghost cutter: Option<nat>)
    modifies turn`commands
    ensures turn.Books() == old(turn.Books()) && old(turn.commands) <= turn.commands
    ensures Cut(turn.view, ghouls, needWood, cutter, turn.commands[|old(turn.commands)|..])
    ensures Own(turn.view, ghouls) && Orderly(turn.view, old(turn.commands)) ==> Orderly(turn.view, turn.commands)
    ensures fighters == Mustered(ghouls, needWood, cutter, |ghouls|)
  {
    hide Tally, Amount, MorphAmount, IsNearest, Distance, Orderly, Own, Lawful, MineInSight;
    var need := needWood;
    fighters, cutter := [], None;
    ghost var orders: seq<Command> := [];
    for i := 0 to |ghouls|
      invariant turn.Books() == old(turn.Books()) && turn.commands == old(turn.commands) + orders
      invariant need == (needWood && cutter == None)
      invariant Cut(turn.view, ghouls[..i], needWood, cutter, orders)
      invariant Own(turn.view, ghouls) && Orderly(turn.view, old(turn.commands)) ==> Orderly(turn.view, turn.commands)
      invariant fighters == Mustered(ghouls, needWood, cutter, i)
    {
      var g := ghouls[i];
      assert ghouls[..i + 1] == ghouls[..i] + [g] && forall k | 0 <= k <= i :: ghouls[..i + 1][..k] == ghouls[..k];
      if need && g.idle && !g.hidden {
        var tree := Nearest(g, turn.view.neutrals, IsTree);
        if tree.Some? {
          CutterNamesMine(turn.view, ghouls, g, tree.value);
          turn.SendWorker(g, tree.value);
          CutterMusters(ghouls, needWood, i, i);
          need, cutter := false, Some(i);
          orders := [Select(g.id), Send(tree.value.id)];
        }
      } else if !g.carrying {
        fighters := fighters + [g];
      }
    }
    assert ghouls[..|ghouls|] == ghouls;
  }

  // ─── Whom the assigners name ──────────────────────────────────────────────

  ghost predicate NamesMine(v: View, a: Assignment) {
    MineInSight(v, a.worker.id) && Lawful(v, Send(a.target.id))
  }

  lemma {:induction false} SendsOrderly(v: View, commands: seq<Command>, sent: seq<Assignment>)
    requires forall a | a in sent :: NamesMine(v, a)
    ensures Orderly(v, commands) ==> Orderly(v, commands + Sends(sent))
  {
    hide Lawful, MineInSight, Orderly;
    if sent == [] {
      assert commands + Sends(sent) == commands;
    } else {
      var init, last := sent[..|sent| - 1], sent[|sent| - 1];
      SendsOrderly(v, commands, init);
      assert Lawful(v, Select(last.worker.id)) by {
        assert NamesMine(v, last);
        SelectInSight(v, last.worker.id);
      }
      OrderlyNext(v, commands + Sends(init), Select(last.worker.id));
      OrderlyNext(v, commands + Sends(init) + [Select(last.worker.id)], Send(last.target.id));
      assert commands + Sends(sent) == commands + Sends(init) + [Select(last.worker.id)] + [Send(last.target.id)];
    }
  }

  lemma SelectInSight(v: View, id: nat)
    ensures Lawful(v, Select(id)) <==> MineInSight(v, id)
  {
  }

  lemma SensibleNamesMine(v: View, workers: seq<Entity>, builderId: Option<nat>, builder: Option<nat>, a: Assignment)
    requires Own(v, workers) && Sensible(v, workers, builderId, builder, a)
    ensures NamesMine(v, a)
  {
    hide IsNearest;
    OwnNames(v, workers, a.worker);
    if a.target.typeName == Tree {
      NearestAmong(a.worker, v.neutrals, IsTree, a.target);
    } else {
      NearestAmong(a.worker, v.neutrals, IsSeam, a.target);
    }
  }

  lemma AssignedOrderly(v: View, commands: seq<Command>, workers: seq<Entity>, needWood: bool, builderId: Option<nat>,
                        remembered: Option<nat>, builder: Option<nat>, sent: seq<Assignment>, woodWorker: Option<nat>)
    requires Own(v, workers) && Assigned(v, workers, needWood, builderId, remembered, builder, sent, woodWorker)
    ensures Orderly(v, commands) ==> Orderly(v, commands + Sends(sent))
  {
    hide Own, Orderly, Sensible, Busy, Any, SentOnce, OneToWood, SentOut, ToWood, NamesMine;
    forall a | a in sent
      ensures NamesMine(v, a)
    {
      SensibleNamesMine(v, workers, builderId, builder, a);
    }
    SendsOrderly(v, commands, sent);
  }

  lemma GatheredOrderly(v: View, commands: seq<Command>, workers: seq<Entity>, builderId: Option<nat>, needWood: bool,
                        keepCutting: bool, mines: seq<Entity>, sent: seq<Assignment>)
    requires Own(v, workers) && Own(v, mines) && Gathering(v, workers, builderId, needWood, keepCutting, mines, sent)
    ensures Orderly(v, commands) ==> Orderly(v, commands + Sends(sent))
  {
    hide Orderly, IsNearest, Any, SentOut, OneToWood, Cutting, AnyFree;
    forall a | a in sent
      ensures NamesMine(v, a)
    {
      OwnNames(v, workers, a.worker);
      if a.target.typeName == Tree {
        NearestAmong(a.worker, v.neutrals, IsTree, a.target);
      } else {
        NearestAmong(a.worker, mines, StandingSource, a.target);
        OwnNames(v, mines, a.target);
      }
    }
    SendsOrderly(v, commands, sent);
  }
}
