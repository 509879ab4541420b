/**
 Warp-in dispatch: clicks given to warpers over commands that land ticks later.
 The client's rules, then the whole loop of click, flush, tick and call-off.
 */
module WarpIn {
  import opened Wrappers

  const SYNC_LATENCY: nat := 2

  type Id = nat

  /** The record of one click: its warper, its tick, and that warper's cooldown end then. */
  datatype Sent = Sent(warper: Id, tick: nat, cooldownEnd: nat) {
    predicate InFlight(now: nat) {
      now <= tick + SYNC_LATENCY + 1
    }
  }

  /** What a click reads of the world: the selection in order, who stands on the
      map, who is an own warper of the leader's type, and who may warp in now. */
  datatype World = World(
    tick: nat, selection: seq<Id>,
    interactable: Id -> bool, kin: (Id, Id) -> bool, ready: Id -> bool,
    cooldownEnd: Id -> nat)

  // ─── Whom a click is given to ─────────────────────────────────────────────

  /** Whether a warper was given a warp-in that has not landed for all one can tell. */
  predicate StillSent(w: World, sent: seq<Sent>, id: Id) {
    exists i | 0 <= i < |sent| ::
      sent[i].warper == id && sent[i].InFlight(w.tick) && sent[i].cooldownEnd == w.cooldownEnd(id)
  }

  /** The ids a test keeps, in order. */
  function Filter(ids: seq<Id>, keep: Id -> bool): (kept: seq<Id>)
    ensures forall id :: id in kept <==> id in ids && keep(id)
  {
    if ids == [] then []
    else if keep(ids[0]) then [ids[0]] + Filter(ids[1..], keep)
    else Filter(ids[1..], keep)
  }

  /** The leader, then the rest of the selection in order. */
  function Offered(selection: seq<Id>, leading: Id): seq<Id> {
    [leading] + Filter(selection, (id: Id) => id != leading)
  }

  predicate Takes(w: World, sent: seq<Sent>, leading: Id, id: Id) {
    w.interactable(id) && w.kin(leading, id) && !StillSent(w, sent, id)
  }

  /** The warpers a click is open to, its leader first and then the selection's order. */
  function Candidates(w: World, sent: seq<Sent>, leading: Id): seq<Id> {
    if w.interactable(leading) then Filter(Offered(w.selection, leading), (id: Id) => Takes(w, sent, leading, id)) else []
  }

  /** The first that may warp in now. */
  function FirstReady(w: World, ids: seq<Id>): (r: Option<Id>)
    ensures r.Some? ==> r.value in ids && w.ready(r.value)
  {
    if ids == [] then None else if w.ready(ids[0]) then Some(ids[0]) else FirstReady(w, ids[1..])
  }

  function Retained(sent: seq<Sent>, now: nat): (kept: seq<Sent>)
    ensures forall s :: s in kept <==> s in sent && s.InFlight(now)
  {
    if sent == [] then []
    else
      var rest := Retained(sent[..|sent| - 1], now);
      if sent[|sent| - 1].InFlight(now) then rest + [sent[|sent| - 1]] else rest
  }

  /** The ready warper the click goes to, if any. */
  function Chosen(w: World, sent: seq<Sent>, leading: Id): (id: Option<Id>)
    ensures id.Some? ==> w.ready(id.value) && id.value in Candidates(w, sent, leading)
  {
    FirstReady(w, Candidates(w, sent, leading))
  }

  function SentAfter(w: World, sent: seq<Sent>, leading: Id): seq<Sent> {
    var chosen := Chosen(w, sent, leading);
    Retained(sent, w.tick)
    + if chosen.Some? then [Sent(chosen.value, w.tick, w.cooldownEnd(chosen.value))] else []
  }

  // ─── No record has a twin ─────────────────────────────────────────────────

  predicate Twins(a: Sent, b: Sent) {
    a.warper == b.warper && a.cooldownEnd == b.cooldownEnd
  }

  ghost predicate NoTwins(sent: seq<Sent>) {
    forall i, j | 0 <= i < j < |sent| :: !Twins(sent[i], sent[j])
  }

  lemma {:induction false} RetainedKeepsApart(sent: seq<Sent>, now: nat)
    requires NoTwins(sent)
    ensures NoTwins(Retained(sent, now))
  {
    if sent != [] {
      var init, last := sent[..|sent| - 1], sent[|sent| - 1];
      RetainedKeepsApart(init, now);
      forall s | s in Retained(init, now)
        ensures !Twins(s, last)
      {
        var i :| 0 <= i < |init| && init[i] == s;
        assert !Twins(sent[i], sent[|sent| - 1]);
      }
    }
  }

  /** A click never records a warper twice under one cooldown end. */
  lemma {:induction false} ClickKeepsApart(w: World, sent: seq<Sent>, leading: Id)
    requires NoTwins(sent)
    ensures NoTwins(SentAfter(w, sent, leading))
  {
    RetainedKeepsApart(sent, w.tick);
    var chosen := Chosen(w, sent, leading);
    if chosen.Some? {
      var kept := Retained(sent, w.tick);
      forall i | 0 <= i < |kept|
        ensures !Twins(kept[i], Sent(chosen.value, w.tick, w.cooldownEnd(chosen.value)))
      {
        assert kept[i] in kept;
        var j :| 0 <= j < |sent| && sent[j] == kept[i];
      }
    }
  }

  // ─── Clicks in a row ──────────────────────────────────────────────────────

  ghost predicate NoRepeats(ids: seq<Id>) {
    forall i, j | 0 <= i < j < |ids| :: ids[i] != ids[j]
  }

  /** Whether a click may be given to `id` now and carried out by it. */
  predicate Able(w: World, sent: seq<Sent>, leading: Id, id: Id) {
    w.interactable(leading) && Takes(w, sent, leading, id) && w.ready(id)
  }

  /** The candidates that may warp in now, in order. */
  function ReadyCandidates(w: World, sent: seq<Sent>, leading: Id): seq<Id> {
    Filter(Offered(w.selection, leading), (id: Id) => Able(w, sent, leading, id))
  }

  lemma {:induction false} FilterTwice(ids: seq<Id>, p: Id -> bool, q: Id -> bool, both: Id -> bool)
    requires forall id :: both(id) <==> p(id) && q(id)
    ensures Filter(Filter(ids, p), q) == Filter(ids, both)
  {
    if ids != [] {
      FilterTwice(ids[1..], p, q, both);
      if p(ids[0]) {
        assert Filter(ids, p)[1..] == Filter(ids[1..], p);
      }
    }
  }

  lemma {:induction false} FilterKeepsApart(ids: seq<Id>, p: Id -> bool)
    requires NoRepeats(ids)
    ensures NoRepeats(Filter(ids, p))
  {
    if ids != [] {
      FilterKeepsApart(ids[1..], p);
      assert ids[0] !in ids[1..];
    }
  }

  lemma {:induction false} FilterAll(ids: seq<Id>, p: Id -> bool)
    requires forall id | id in ids :: p(id)
    ensures Filter(ids, p) == ids
  {
    if ids != [] {
      FilterAll(ids[1..], p);
    }
  }

  lemma {:induction false} FilterNone(ids: seq<Id>, p: Id -> bool)
    requires forall id | id in ids :: !p(id)
    ensures Filter(ids, p) == []
  {
    if ids != [] {
      FilterNone(ids[1..], p);
    }
  }

  lemma {:induction false} FirstReadyIsFirst(w: World, ids: seq<Id>)
    ensures var ready := Filter(ids, w.ready);
            FirstReady(w, ids) == if ready == [] then None else Some(ready[0])
  {
    if ids != [] {
      FirstReadyIsFirst(w, ids[1..]);
    }
  }

  /** The click goes to the first ready candidate, if there is one. */
  lemma ChosenIsFirst(w: World, sent: seq<Sent>, leading: Id)
    ensures var ready := ReadyCandidates(w, sent, leading);
            Chosen(w, sent, leading) == if ready == [] then None else Some(ready[0])
  {
    var ids := Offered(w.selection, leading);
    FirstReadyIsFirst(w, Candidates(w, sent, leading));
    if !w.interactable(leading) {
      FilterNone(ids, (id: Id) => Able(w, sent, leading, id));
    } else {
      FilterTwice(ids, (id: Id) => Takes(w, sent, leading, id), w.ready, (id: Id) => Able(w, sent, leading, id));
    }
  }

  /** Whether a warper could be given the click and carry it out: it and the leader stand
      on the map, it is of the leader's kind, it may warp in now, and every record of it
      under the cooldown end it stands at is older than the latency and a tick. */
  ghost predicate CanBeGiven(w: World, sent: seq<Sent>, leading: Id, id: Id) {
    && w.interactable(leading) && w.interactable(id) && w.kin(leading, id) && w.ready(id)
    && forall r | r in sent && r.warper == id && r.cooldownEnd == w.cooldownEnd(id) :: r.tick + 3 < w.tick
  }

  lemma AbleCanBeGiven(w: World, sent: seq<Sent>, leading: Id, id: Id)
    ensures Able(w, sent, leading, id) <==> CanBeGiven(w, sent, leading, id)
  {
    if exists r :: r in sent && r.warper == id && r.cooldownEnd == w.cooldownEnd(id) && r.tick + 3 >= w.tick {
      var r :| r in sent && r.warper == id && r.cooldownEnd == w.cooldownEnd(id) && r.tick + 3 >= w.tick;
      var i :| 0 <= i < |sent| && sent[i] == r;
      assert sent[i].InFlight(w.tick) && StillSent(w, sent, id);
    }
  }

  lemma {:induction false} FilterFirst(ids: seq<Id>, p: Id -> bool) returns (i: nat)
    ensures var kept := Filter(ids, p);
            if kept == [] then forall id | id in ids :: !p(id)
            else i < |ids| && ids[i] == kept[0] && p(ids[i]) && forall j | 0 <= j < i :: !p(ids[j])
  {
    i := 0;
    if ids != [] && !p(ids[0]) {
      var k := FilterFirst(ids[1..], p);
      i := k + 1;
      assert forall j | 0 < j < |ids| :: ids[j] == ids[1..][j - 1];
    }
  }

  /** Of those the click could be given to it goes to the leader, and else to the first
      in the selection; to none exactly when there is none. */
  lemma {:induction false} ChosenOverSelection(w: World, sent: seq<Sent>, leading: Id)
    ensures match Chosen(w, sent, leading)
            case None => !CanBeGiven(w, sent, leading, leading) && forall id | id in w.selection :: !CanBeGiven(w, sent, leading, id)
            case Some(id) =>
              && CanBeGiven(w, sent, leading, id)
              && (id != leading ==>
                    && !CanBeGiven(w, sent, leading, leading)
                    && exists i :: 0 <= i < |w.selection| && w.selection[i] == id
                                   && forall j | 0 <= j < i :: !CanBeGiven(w, sent, leading, w.selection[j]))
  {
    hide Able, CanBeGiven, Chosen;
    var able := (id: Id) => Able(w, sent, leading, id);
    var others := (id: Id) => id != leading;
    var rest, both := Filter(w.selection, others), (id: Id) => id != leading && Able(w, sent, leading, id);
    ChosenIsFirst(w, sent, leading);
    forall id {
      AbleCanBeGiven(w, sent, leading, id);
    }
    assert Offered(w.selection, leading)[1..] == rest;
    if !able(leading) {
      FilterTwice(w.selection, others, able, both);
      var i := FilterFirst(w.selection, both);
      if Filter(w.selection, both) == [] {
        assert forall id | id in w.selection :: !CanBeGiven(w, sent, leading, id);
      } else {
        assert forall j | 0 <= j < i :: !CanBeGiven(w, sent, leading, w.selection[j]);
      }
    }
  }

  /** The world one tick or more on, nothing having landed in between. */
  ghost predicate Later(w: World, v: World, sent: seq<Sent>) {
    && v == w.(tick := v.tick)
    && w.tick <= v.tick
    && Outlast(sent, w.tick, v.tick)
  }

  lemma StillSentAfterClick(w: World, v: World, sent: seq<Sent>, leading: Id, id: Id)
    requires Later(w, v, SentAfter(w, sent, leading))
    ensures StillSent(v, SentAfter(w, sent, leading), id)
            <==> StillSent(w, sent, id) || Chosen(w, sent, leading) == Some(id)
  {
    var after, kept, chosen := SentAfter(w, sent, leading), Retained(sent, w.tick), Chosen(w, sent, leading);
    if StillSent(v, after, id) {
      var i :| 0 <= i < |after| && after[i].warper == id && after[i].InFlight(v.tick)
               && after[i].cooldownEnd == v.cooldownEnd(id);
      if i < |kept| {
        assert after[i] in kept;
        var j :| 0 <= j < |sent| && sent[j] == after[i];
      }
    }
    if StillSent(w, sent, id) {
      var j :| 0 <= j < |sent| && sent[j].warper == id && sent[j].InFlight(w.tick)
               && sent[j].cooldownEnd == w.cooldownEnd(id);
      assert sent[j] in kept;
      var i :| 0 <= i < |kept| && kept[i] == sent[j];
      assert after[i] == sent[j];
    }
    if chosen == Some(id) {
      assert after[|kept|].InFlight(w.tick);
    }
  }

  /** After a click the able are those able before, but for the one it went to. */
  lemma AbleAfterClick(w: World, v: World, sent: seq<Sent>, leading: Id, id: Id)
    requires Later(w, v, SentAfter(w, sent, leading))
    ensures Able(v, SentAfter(w, sent, leading), leading, id)
            <==> Able(w, sent, leading, id) && Chosen(w, sent, leading) != Some(id)
  {
    hide StillSent, SentAfter, Chosen;
    StillSentAfterClick(w, v, sent, leading, id);
  }

  lemma {:induction false} FilterLeavesRest(ids: seq<Id>, p: Id -> bool, q: Id -> bool)
    requires NoRepeats(ids)
    requires var kept := Filter(ids, p); forall id :: q(id) <==> p(id) && (kept == [] || id != kept[0])
    ensures var kept := Filter(ids, p); Filter(ids, q) == if kept == [] then [] else kept[1..]
  {
    var kept := Filter(ids, p);
    if kept == [] {
      forall id | id in ids
        ensures !q(id)
      {
        assert id in kept <==> p(id);
      }
      FilterNone(ids, q);
    } else {
      var others := (id: Id) => id != kept[0];
      FilterTwice(ids, p, others, q);
      FilterKeepsApart(ids, p);
      FilterAll(kept[1..], others);
    }
  }

  /** A click takes the first ready candidate and leaves the others in order. */
  lemma {:induction false} ClickTakesFirst(w: World, v: World, sent: seq<Sent>, leading: Id)
    requires NoRepeats(w.selection)
    requires Later(w, v, SentAfter(w, sent, leading))
    ensures var ready := ReadyCandidates(w, sent, leading);
            ReadyCandidates(v, SentAfter(w, sent, leading), leading) == if ready == [] then [] else ready[1..]
  {
    hide StillSent, SentAfter, Chosen, Takes;
    var ids, after := Offered(w.selection, leading), SentAfter(w, sent, leading);
    ChosenIsFirst(w, sent, leading);
    forall id {
      AbleAfterClick(w, v, sent, leading, id);
    }
    FilterKeepsApart(w.selection, (id: Id) => id != leading);
    assert leading !in ids[1..];
    FilterLeavesRest(ids, (id: Id) => Able(w, sent, leading, id), (id: Id) => Able(v, after, leading, id));
  }

  /** Clicks at given ticks, one after another: the warpers they are given to. */
  function Clicks(w: World, sent: seq<Sent>, leading: Id, ticks: seq<nat>): (given: seq<Option<Id>>)
    ensures |given| == |ticks|
    decreases |ticks|
  {
    if ticks == [] then []
    else
      var now := w.(tick := ticks[0]);
      [Chosen(now, sent, leading)] + Clicks(w, SentAfter(now, sent, leading), leading, ticks[1..])
  }

  /**
   Clicks inside one latency window, nothing landing meanwhile and no older
   record lapsing, go to the ready candidates one each, in candidate order;
   once they run out the rest go to none.
   */
  lemma {:induction false} ClicksGoRound(w: World, sent: seq<Sent>, leading: Id, ticks: seq<nat>)
    requires NoRepeats(w.selection) && ticks != []
    requires forall i, j | 0 <= i <= j < |ticks| :: ticks[i] <= ticks[j] <= ticks[i] + SYNC_LATENCY + 1
    requires Outlast(sent, ticks[0], ticks[|ticks| - 1])
    ensures var ready := ReadyCandidates(w.(tick := ticks[0]), sent, leading);
            forall k | 0 <= k < |ticks| ::
              Clicks(w, sent, leading, ticks)[k] == if k < |ready| then Some(ready[k]) else None
    decreases |ticks|
  {
    hide StillSent, SentAfter, Chosen, ReadyCandidates;
    var now := w.(tick := ticks[0]);
    ChosenIsFirst(now, sent, leading);
    if |ticks| > 1 {
      var after := SentAfter(now, sent, leading);
      RecordsOutlast(now, sent, leading, ticks[1], ticks[|ticks| - 1]);
      ClickTakesFirst(now, w.(tick := ticks[1]), sent, leading);
      ClicksGoRound(w, after, leading, ticks[1..]);
    }
  }

  /** Every record in flight at one tick still is at another. */
  ghost predicate Outlast(sent: seq<Sent>, now: nat, later: nat) {
    forall i | 0 <= i < |sent| :: sent[i].InFlight(now) ==> sent[i].InFlight(later)
  }

  lemma RecordsOutlast(w: World, sent: seq<Sent>, leading: Id, next: nat, end: nat)
    requires w.tick <= next <= end <= w.tick + SYNC_LATENCY + 1
    requires Outlast(sent, w.tick, end)
    ensures Outlast(SentAfter(w, sent, leading), w.tick, next)
    ensures Outlast(SentAfter(w, sent, leading), next, end)
  {
    var after, kept := SentAfter(w, sent, leading), Retained(sent, w.tick);
    forall i | 0 <= i < |after|
      ensures after[i].InFlight(next) && after[i].InFlight(end)
    {
      if i < |kept| {
        assert after[i] in kept;
        var j :| 0 <= j < |sent| && sent[j] == after[i];
      }
    }
  }

  // ─── Clicks in worlds that change ─────────────────────────────────────────

  /** The records after the first `n` clicks, each in its own world. */
  function SentUpTo(worlds: seq<World>, sent: seq<Sent>, leading: seq<Id>, n: nat): seq<Sent>
    requires n <= |worlds| == |leading|
  {
    if n == 0 then sent else SentAfter(worlds[n - 1], SentUpTo(worlds, sent, leading, n - 1), leading[n - 1])
  }

  lemma ClickKeeps(w: World, sent: seq<Sent>, leading: Id, s: Sent)
    requires s in sent && s.InFlight(w.tick)
    ensures s in SentAfter(w, sent, leading)
  {
    hide Chosen;
  }

  /** A record is kept as long as it is in flight. */
  lemma {:induction false} RecordLasts(worlds: seq<World>, sent: seq<Sent>, leading: seq<Id>, s: Sent, i: nat, j: nat)
    requires i <= j <= |worlds| == |leading| && s in SentUpTo(worlds, sent, leading, i)
    requires forall l | i <= l < j :: s.InFlight(worlds[l].tick)
    ensures s in SentUpTo(worlds, sent, leading, j)
    decreases j
  {
    hide SentAfter;
    if i < j {
      RecordLasts(worlds, sent, leading, s, i, j - 1);
      ClickKeeps(worlds[j - 1], SentUpTo(worlds, sent, leading, j - 1), leading[j - 1], s);
    }
  }

  /**
   However the worlds change in between — who is ready, what is selected, which
   records lapse — two clicks inside one latency window go to different warpers,
   unless the first one's cooldown has moved.
   */
  lemma {:induction false} ClicksApart(worlds: seq<World>, sent: seq<Sent>, leading: seq<Id>, i: nat, j: nat, id: Id)
    requires i < j < |worlds| == |leading|
    requires Chosen(worlds[i], SentUpTo(worlds, sent, leading, i), leading[i]) == Some(id)
    requires forall l | i < l <= j :: worlds[l].tick <= worlds[i].tick + SYNC_LATENCY + 1
    requires worlds[j].cooldownEnd(id) == worlds[i].cooldownEnd(id)
    ensures Chosen(worlds[j], SentUpTo(worlds, sent, leading, j), leading[j]) != Some(id)
  {
    hide Chosen, Retained;
    var w, before := worlds[i], SentUpTo(worlds, sent, leading, i);
    var s := Sent(id, w.tick, w.cooldownEnd(id));
    assert SentUpTo(worlds, sent, leading, i + 1) == Retained(before, w.tick) + [s];
    RecordLasts(worlds, sent, leading, s, i + 1, j);
    NotGivenAgain(worlds[j], SentUpTo(worlds, sent, leading, j), leading[j], s);
  }

  /** A click goes to no warper whose record stands, nor to one that is not ready. */
  lemma NotGivenAgain(w: World, sent: seq<Sent>, leading: Id, s: Sent)
    requires s in sent && s.InFlight(w.tick)
    requires w.cooldownEnd(s.warper) == s.cooldownEnd || !w.ready(s.warper)
    ensures Chosen(w, sent, leading) != Some(s.warper)
  {
    var j :| 0 <= j < |sent| && sent[j] == s;
  }

  /** Whether `id` is one the click could go to, commands on their way aside. */
  predicate Eligible(w: World, leading: Id, id: Id) {
    && w.interactable(leading) && w.interactable(id) && w.kin(leading, id)
    && (id == leading || id in w.selection)
  }

  /** An eligible warper is offered exactly when nothing given to it may still be on its way. */
  lemma OfferedUnlessSent(w: World, sent: seq<Sent>, leading: Id, id: Id)
    requires Eligible(w, leading, id)
    ensures id in Candidates(w, sent, leading) <==> !StillSent(w, sent, id)
  {
  }

  /**
   While a warper's cooldown stands where a record found it — its command still on
   its way, or refused — clicks pass it over for exactly the latency and a tick.
   */
  lemma OfferedAgain(w: World, sent: seq<Sent>, leading: Id, s: Sent)
    requires NoTwins(sent) && s in sent
    requires Eligible(w, leading, s.warper) && w.cooldownEnd(s.warper) == s.cooldownEnd
    ensures s.warper in Candidates(w, sent, leading) <==> s.tick + SYNC_LATENCY + 2 <= w.tick
  {
    var j :| 0 <= j < |sent| && sent[j] == s;
    forall i | 0 <= i < |sent| && Twins(sent[i], s)
      ensures i == j
    {
    }
  }

  /** Once its cooldown has moved past every record of it, a warper is offered at once. */
  lemma OfferedOnLanding(w: World, sent: seq<Sent>, leading: Id, id: Id)
    requires Eligible(w, leading, id)
    requires forall i | 0 <= i < |sent| && sent[i].warper == id :: sent[i].cooldownEnd < w.cooldownEnd(id)
    ensures id in Candidates(w, sent, leading)
  {
  }
}
