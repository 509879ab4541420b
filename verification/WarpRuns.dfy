/**
 Warp-ins over whole runs: clicks, commands buffered and scheduled, ticks that
 carry them out or refuse them, units called off while they rise.
 */
module WarpRuns {
  import opened Wrappers
  import opened WarpIn

  /** A warp-in command on its way. `given` when a ready candidate took the
      click, and then the tick and cooldown end recorded with it. */
  datatype Order = Order(warper: Id, given: bool, tick: nat, cooldownEnd: nat) {
    function Record(): Sent {
      Sent(warper, tick, cooldownEnd)
    }
  }

  /** An order buffered until the next flush, or due at the tick it is scheduled for. */
  datatype Queued = Queued(order: Order, due: Option<nat>)

  /** A unit still rising: who warped it in, and the cooldown end that set. */
  datatype Rising = Rising(warper: Id, readyAt: nat)

  /** What a click reads besides the clock and the cooldowns. */
  datatype Standing = Standing(
    selection: seq<Id>, interactable: Id -> bool, kin: (Id, Id) -> bool, otherwiseReady: Id -> bool)

  /** The `unit`-th rising unit called off; `holds` when its warper is still there,
      still the payer's, and still warps. */
  datatype CallOff = CallOff(unit: nat, holds: bool)

  /** What the commands of one tick come to: call-offs before the warp-ins due and
      after them, which of those land, and how long each cools its warper. */
  datatype Deeds = Deeds(first: seq<CallOff>, lands: Order -> bool, trainTime: Order -> nat, last: seq<CallOff>)

  datatype Event =
    | Click(leading: Id, standing: Standing)
    | Update(blocked: bool, deeds: Deeds)
    | Risen(unit: nat)

  /** `flushedTo` is the tick of the latest frame committed. */
  datatype State = State(
    tick: nat, flushedTo: nat, queue: seq<Queued>, sent: seq<Sent>, cooldowns: map<Id, nat>, rising: seq<Rising>)
  {
    function End(id: Id): nat {
      if id in cooldowns then cooldowns[id] else 0
    }

    /** The world a click reads now; a warper still cooling down is not ready. */
    function Seen(s: Standing): World {
      World(tick, s.selection, s.interactable, s.kin, (id: Id) => s.otherwiseReady(id) && End(id) <= tick, (id: Id) => End(id))
    }
  }

  // ─── What each step does ──────────────────────────────────────────────────

  /** A click: the order goes to the first ready candidate, else to the leader. */
  function Clicked(s: State, leading: Id, standing: Standing): State {
    var w := s.Seen(standing);
    var chosen := Chosen(w, s.sent, leading);
    var order := if chosen.Some? then Order(chosen.value, true, s.tick, s.End(chosen.value)) else Order(leading, false, s.tick, 0);
    s.(sent := SentAfter(w, s.sent, leading), queue := s.queue + [Queued(order, None)])
  }

  /** The buffered orders committed to the frame a latency ahead, once a tick. */
  function Flushed(s: State): State {
    var target := s.tick + SYNC_LATENCY;
    if s.flushedTo >= target then s
    else s.(queue := Scheduled(s.queue, target), flushedTo := target)
  }

  function Scheduled(queue: seq<Queued>, target: nat): (scheduled: seq<Queued>)
    ensures |scheduled| == |queue|
    ensures forall i | 0 <= i < |queue| ::
              scheduled[i] == if queue[i].due.None? then Queued(queue[i].order, Some(target)) else queue[i]
  {
    seq(|queue|, i requires 0 <= i < |queue| =>
      if queue[i].due.None? then Queued(queue[i].order, Some(target)) else queue[i])
  }

  /** Whether calling a unit off resets its warper: only when the warper still cools
      down from that very warp-in. */
  predicate Resets(s: State, off: CallOff) {
    off.unit < |s.rising| && off.holds && s.End(s.rising[off.unit].warper) == s.rising[off.unit].readyAt
  }

  function CalledOff(s: State, off: CallOff): State {
    if off.unit >= |s.rising| then s
    else
      var left := s.(rising := s.rising[..off.unit] + s.rising[off.unit + 1..]);
      if Resets(s, off) then left.(cooldowns := s.cooldowns[s.rising[off.unit].warper := s.tick]) else left
  }

  function AllCalledOff(s: State, offs: seq<CallOff>): State
    decreases |offs|
  {
    if offs == [] then s else CalledOff(AllCalledOff(s, offs[..|offs| - 1]), offs[|offs| - 1])
  }

  /** One order carried out, or refused: its warper cools down only when it lands. */
  function Carried(s: State, q: Queued, deeds: Deeds): State {
    if q.due == Some(s.tick) && deeds.lands(q.order) && s.End(q.order.warper) <= s.tick then
      var readyAt := s.tick + deeds.trainTime(q.order);
      s.(cooldowns := s.cooldowns[q.order.warper := readyAt], rising := s.rising + [Rising(q.order.warper, readyAt)])
    else s
  }

  /** The first `n` orders of the queue carried out where they are due. */
  function AllCarried(s: State, deeds: Deeds, n: nat): State
    requires n <= |s.queue|
  {
    if n == 0 then s else Carried(AllCarried(s, deeds, n - 1), s.queue[n - 1], deeds)
  }

  /** What is left of a queue once the orders due at a tick have run. */
  function LeftOver(queue: seq<Queued>, tick: nat): (left: seq<Queued>)
    ensures forall q :: q in left <==> q in queue && q.due != Some(tick)
  {
    if queue == [] then []
    else
      var rest, q := LeftOver(queue[..|queue| - 1], tick), queue[|queue| - 1];
      if q.due == Some(tick) then rest else rest + [q]
  }

  /** A tick's deeds up to its last call-offs. */
  function Done(s: State, deeds: Deeds): State {
    var off := AllCalledOff(s, deeds.first);
    AllCarried(off, deeds, |off.queue|).(queue := LeftOver(off.queue, s.tick))
  }

  function Ticked(s: State, deeds: Deeds): State {
    AllCalledOff(Done(s, deeds), deeds.last).(tick := s.tick + 1)
  }

  function Stepped(s: State, e: Event): State {
    match e
    case Click(leading, standing) => Clicked(s, leading, standing)
    case Update(blocked, deeds) => if blocked then Flushed(s) else Ticked(Flushed(s), deeds)
    case Risen(unit) => if unit < |s.rising| then s.(rising := s.rising[..unit] + s.rising[unit + 1..]) else s
  }

  function After(s: State, events: seq<Event>): State
    decreases |events|
  {
    if events == [] then s else Stepped(After(s, events[..|events| - 1]), events[|events| - 1])
  }

  /** The client's buffers and what of the simulation they wait on. */
  class Dispatch {
    var tick: nat
    var flushedTo: nat
    var queue: seq<Queued>
    var sent: seq<Sent>
    var cooldowns: map<Id, nat>
    var rising: seq<Rising>

    function Now(): State
      reads this
    {
      State(tick, flushedTo, queue, sent, cooldowns, rising)
    }

    constructor ()
      ensures Now() == Start() && Valid(Now()) && Exclusive(Now()) && Aged(Now())
    {
      tick, flushedTo, queue, sent, cooldowns, rising := 0, SYNC_LATENCY - 1, [], [], map[], [];
    }

    /** Gives the click to the first candidate that may warp in now, else to the leader. */
    method IssueWarp(leading: Id, s: Standing)
      modifies this
      ensures Now() == Clicked(old(Now()), leading, s)
      ensures |queue| == |old(queue)| + 1 && queue[..|old(queue)|] == old(queue) && queue[|old(queue)|].due == None
      ensures var order := queue[|old(queue)|].order;
              && (order.given ==>
                    && s.otherwiseReady(order.warper) && Now().End(order.warper) <= tick
                    && order.Record() == Sent(order.warper, tick, Now().End(order.warper)))
              && (!order.given ==> order.warper == leading)
              && (!order.given && s.interactable(leading) ==>
                    forall id | id == leading || id in s.selection ::
                      s.interactable(id) && s.kin(leading, id) && s.otherwiseReady(id) && Now().End(id) <= tick ==>
                      exists r :: r in old(sent) && r.warper == id && r.cooldownEnd == Now().End(id) && tick <= r.tick + 3)
              && forall r :: r in sent <==> (r in old(sent) && tick <= r.tick + SYNC_LATENCY + 1) || (order.given && r == order.Record())
    {
      var w := Now().Seen(s);
      var ready := Chosen(w, sent, leading);
      ChosenOverSelection(w, sent, leading);
      var order := Order(leading, false, tick, 0);
      sent := Retained(sent, tick);
      if ready.Some? {
        order := Order(ready.value, true, tick, Now().End(ready.value));
        sent := sent + [order.Record()];
      }
      queue := queue + [Queued(order, None)];
      assert sent == SentAfter(w, old(sent), leading);
    }

    /** Commits the buffered orders to the frame a latency ahead, once a tick. */
    method FlushInput()
      modifies this`queue, this`flushedTo
      ensures Now() == Flushed(old(Now()))
      ensures if old(flushedTo) >= tick + SYNC_LATENCY then Now() == old(Now())
              else && flushedTo == tick + SYNC_LATENCY && |queue| == |old(queue)|
                   && forall i | 0 <= i < |queue| ::
                        && queue[i].order == old(queue)[i].order
                        && queue[i].due == if old(queue)[i].due.None? then Some(tick + SYNC_LATENCY) else old(queue)[i].due
    {
      var target := tick + SYNC_LATENCY;
      if flushedTo >= target {
        return;
      }
      queue := Scheduled(queue, target);
      flushedTo := target;
    }

    /**
     Tears a rising unit down and resets the cooldown that was its own: its warper's
     ends now when it still cools down from that very warp-in, and no other moves.
     */
    method CallOffUnit(off: CallOff)
      modifies this`cooldowns, this`rising
      ensures Now() == CalledOff(old(Now()), off)
      ensures off.unit >= |old(rising)| ==> Now() == old(Now())
      ensures off.unit < |old(rising)| ==>
                var unit := old(rising)[off.unit];
                && rising == old(rising)[..off.unit] + old(rising)[off.unit + 1..]
                && Now().End(unit.warper)
                   == (if off.holds && old(Now()).End(unit.warper) == unit.readyAt then tick else old(Now()).End(unit.warper))
                && forall id | id != unit.warper :: Now().End(id) == old(Now()).End(id)
      ensures old(Aged(Now())) ==> Aged(Now())
    {
      if Aged(Now()) {
        CallOffAges(Now(), off);
      }
      if off.unit >= |rising| {
        return;
      }
      var unit := rising[off.unit];
      rising := rising[..off.unit] + rising[off.unit + 1..];
      if off.holds && Now().End(unit.warper) == unit.readyAt {
        cooldowns := cooldowns[unit.warper := tick];
      }
    }

    method CallOffAll(offs: seq<CallOff>)
      modifies this`cooldowns, this`rising
      ensures Now() == AllCalledOff(old(Now()), offs)
    {
      assert offs[..|offs|] == offs;
      for i := 0 to |offs|
        invariant Now() == AllCalledOff(old(Now()), offs[..i])
      {
        assert offs[..i + 1][..i] == offs[..i];
        CallOffUnit(offs[i]);
      }
    }

    /** Carries out every order due now, in order, or refuses it. */
    method ExecuteDue(deeds: Deeds)
      modifies this`cooldowns, this`rising
      ensures Now() == AllCarried(old(Now()), deeds, |queue|)
    {
      for i := 0 to |queue|
        invariant Now() == AllCarried(old(Now()), deeds, i)
      {
        var q := queue[i];
        if q.due == Some(tick) && deeds.lands(q.order) && Now().End(q.order.warper) <= tick {
          var readyAt := tick + deeds.trainTime(q.order);
          cooldowns := cooldowns[q.order.warper := readyAt];
          rising := rising + [Rising(q.order.warper, readyAt)];
        }
      }
    }

    /** The deeds of a tick, then the next tick. */
    method RunTick(deeds: Deeds)
      modifies this
      ensures Now() == Ticked(old(Now()), deeds)
      ensures tick == old(tick) + 1 && flushedTo == old(flushedTo) && sent == old(sent)
      ensures forall q :: q in queue <==> q in old(queue) && q.due != Some(old(tick))
    {
      hide AllCalledOff, AllCarried, LeftOver;
      CallOffAll(deeds.first);
      CallOffsKeepQueue(old(Now()), deeds.first);
      ghost var off := Now();
      ExecuteDue(deeds);
      CarryingKeepsQueue(off, deeds, |off.queue|);
      queue := LeftOver(queue, tick);
      ghost var done := Now();
      CallOffAll(deeds.last);
      CallOffsKeepQueue(done, deeds.last);
      tick := tick + 1;
    }

    /** One fixed update: flush, then, unless blocked, a tick. */
    method FixedUpdate(blocked: bool, deeds: Deeds)
      modifies this
      ensures Now() == Stepped(old(Now()), Update(blocked, deeds))
    {
      FlushInput();
      if !blocked {
        RunTick(deeds);
      }
    }

    /**
     Whatever is clicked, run, blocked, landed, refused and called off: no two
     records are twins, and no two orders given to one warper under one cooldown
     end are on their way together. When every warp-in cools its warper longer than
     a command takes to land, no click at any point of the run would put two orders
     for one warper on their way exactly when all its call-offs are harmless.
     */
    method Run(events: seq<Event>)
      requires Valid(Now())
      modifies this
      ensures Now() == After(old(Now()), events) && Valid(Now())
      ensures old(Aged(Now())) ==> Aged(Now())
      ensures old(Exclusive(Now())) && SlowRun(events) ==>
                && (CalmRun(old(Now()), events) ==> Exclusive(Now()))
                && (CalmRun(old(Now()), events)
                    <==> forall n | 0 <= n <= |events| :: !MayDouble(After(old(Now()), events[..n])))
    {
      hide Valid, Exclusive, Stepped, Calm, CalmRun, MayDouble, SlowRun, Aged;
      assert events[..|events|] == events;
      for i := 0 to |events|
        invariant Now() == After(old(Now()), events[..i])
      {
        assert events[..i + 1][..i] == events[..i];
        Step(events[i]);
      }
      RunKeeps(old(Now()), events);
      if old(Aged(Now())) {
        RunAges(old(Now()), events);
      }
      if old(Exclusive(Now())) && SlowRun(events) {
        RunExactly(old(Now()), events);
      }
    }

    method Step(e: Event)
      modifies this
      ensures Now() == Stepped(old(Now()), e)
      ensures tick == old(tick) + if e.Update? && !e.blocked then 1 else 0
      ensures e.Risen? ==>
                && queue == old(queue) && sent == old(sent) && cooldowns == old(cooldowns)
                && rising == if e.unit < |old(rising)| then old(rising)[..e.unit] + old(rising)[e.unit + 1..] else old(rising)
    {
      match e
      case Click(leading, standing) => IssueWarp(leading, standing);
      case Update(blocked, deeds) => FixedUpdate(blocked, deeds);
      case Risen(unit) =>
        if unit < |rising| {
          rising := rising[..unit] + rising[unit + 1..];
        }
    }
  }

  function Start(): State {
    State(0, SYNC_LATENCY - 1, [], [], map[], [])
  }

  lemma CallOffsKeepQueue(s: State, offs: seq<CallOff>)
    ensures var t := AllCalledOff(s, offs);
            t.queue == s.queue && t.tick == s.tick && t.flushedTo == s.flushedTo && t.sent == s.sent
    decreases |offs|
  {
  }

  lemma CarryingKeepsQueue(s: State, deeds: Deeds, n: nat)
    requires n <= |s.queue|
    ensures var t := AllCarried(s, deeds, n);
            t.queue == s.queue && t.tick == s.tick && t.flushedTo == s.flushedTo && t.sent == s.sent
  {
  }

  // ─── Whose cooldown it is ─────────────────────────────────────────────────

  /** A unit whose warp-in is not over yet is the one its warper cools down from, and
      no unit after it is of that warper's. */
  ghost predicate Aged(s: State) {
    forall u | 0 <= u < |s.rising| && s.tick < s.rising[u].readyAt ::
      && s.End(s.rising[u].warper) == s.rising[u].readyAt
      && forall v | u < v < |s.rising| :: s.rising[v].warper != s.rising[u].warper
  }

  lemma CallOffAges(s: State, off: CallOff)
    requires Aged(s)
    ensures Aged(CalledOff(s, off))
  {
    if off.unit < |s.rising| {
      var t := CalledOff(s, off);
      forall u | 0 <= u < |t.rising| && t.tick < t.rising[u].readyAt
        ensures t.End(t.rising[u].warper) == t.rising[u].readyAt
        ensures forall v | u < v < |t.rising| :: t.rising[v].warper != t.rising[u].warper
      {
        var was := if u < off.unit then u else u + 1;
        assert t.rising[u] == s.rising[was];
        assert forall v | u < v < |t.rising| :: t.rising[v] == s.rising[if v < off.unit then v else v + 1];
      }
    }
  }

  lemma {:induction false} CallOffsAge(s: State, offs: seq<CallOff>)
    requires Aged(s)
    ensures Aged(AllCalledOff(s, offs))
    decreases |offs|
  {
    if offs != [] {
      hide Aged, CalledOff;
      CallOffsAge(s, offs[..|offs| - 1]);
      CallOffAges(AllCalledOff(s, offs[..|offs| - 1]), offs[|offs| - 1]);
    }
  }

  lemma CarryAges(s: State, q: Queued, deeds: Deeds)
    requires Aged(s)
    ensures Aged(Carried(s, q, deeds))
  {
  }

  lemma {:induction false} CarryingAges(s: State, deeds: Deeds, n: nat)
    requires n <= |s.queue| && Aged(s)
    ensures Aged(AllCarried(s, deeds, n))
  {
    if n > 0 {
      hide Aged, Carried;
      CarryingAges(s, deeds, n - 1);
      CarryAges(AllCarried(s, deeds, n - 1), s.queue[n - 1], deeds);
    }
  }

  lemma AgesOn(s: State, t: State)
    requires Aged(s) && t.cooldowns == s.cooldowns && t.rising == s.rising && s.tick <= t.tick
    ensures Aged(t)
  {
  }

  /** Up to any call-off of a tick, before the warp-ins due or after them, it holds. */
  lemma TickAges(s: State, deeds: Deeds)
    requires Aged(s)
    ensures forall n | 0 <= n <= |deeds.first| :: Aged(AllCalledOff(s, deeds.first[..n]))
    ensures forall n | 0 <= n <= |deeds.last| :: Aged(AllCalledOff(Done(s, deeds), deeds.last[..n]))
    ensures Aged(Ticked(s, deeds))
  {
    hide Aged, AllCalledOff, AllCarried;
    forall n | 0 <= n <= |deeds.first| {
      CallOffsAge(s, deeds.first[..n]);
    }
    var off := AllCalledOff(s, deeds.first);
    assert deeds.first[..|deeds.first|] == deeds.first;
    CarryingAges(off, deeds, |off.queue|);
    AgesOn(AllCarried(off, deeds, |off.queue|), Done(s, deeds));
    forall n | 0 <= n <= |deeds.last| {
      CallOffsAge(Done(s, deeds), deeds.last[..n]);
    }
    assert deeds.last[..|deeds.last|] == deeds.last;
    CallOffsKeepQueue(s, deeds.first);
    CarryingKeepsQueue(off, deeds, |off.queue|);
    CallOffsKeepQueue(Done(s, deeds), deeds.last);
    AgesOn(AllCalledOff(Done(s, deeds), deeds.last), Ticked(s, deeds));
  }

  lemma StepAges(s: State, e: Event)
    requires Aged(s)
    ensures Aged(Stepped(s, e))
  {
    match e
    case Click(leading, standing) =>
      AgesOn(s, Clicked(s, leading, standing));
    case Update(blocked, deeds) =>
      AgesOn(s, Flushed(s));
      if !blocked {
        hide Ticked;
        TickAges(Flushed(s), deeds);
      }
    case Risen(unit) =>
      CallOffAges(s, CallOff(unit, false));
  }

  lemma {:induction false} RunAges(s: State, events: seq<Event>)
    requires Aged(s)
    ensures Aged(After(s, events))
    decreases |events|
  {
    if events != [] {
      hide Aged, Stepped;
      RunAges(s, events[..|events| - 1]);
      StepAges(After(s, events[..|events| - 1]), events[|events| - 1]);
    }
  }

  /** What a call-off leaves of the cooldowns: its unit's warper's ends now when it still
      cools down from that unit's warp-in, and every other stands where it stood. */
  lemma CallOffEnds(s: State, off: CallOff)
    requires off.unit < |s.rising|
    ensures var t, unit := CalledOff(s, off), s.rising[off.unit];
            && t.End(unit.warper) == (if off.holds && s.End(unit.warper) == unit.readyAt then s.tick else s.End(unit.warper))
            && forall id | id != unit.warper :: t.End(id) == s.End(id)
  {
  }

  /** Where call-offs come upon a run: at some point of a tick, before the warp-ins
      due or after them. */
  ghost predicate Meets(s: State, deeds: Deeds, t: State) {
    || (exists n :: 0 <= n <= |deeds.first| && t == AllCalledOff(s, deeds.first[..n]))
    || (exists n :: 0 <= n <= |deeds.last| && t == AllCalledOff(Done(s, deeds), deeds.last[..n]))
  }

  /**
   In any run, at any call-off of any tick: a warper that cools down is made ready
   exactly by the call-off, its warper holding, of the unit it cools down from; and
   that is the last of its units still rising.
   */
  lemma {:induction false} CoolingEndsExactly(events: seq<Event>, deeds: Deeds, t: State, off: CallOff, id: Id)
    requires Meets(Flushed(After(Start(), events)), deeds, t) && t.tick < t.End(id)
    ensures CalledOff(t, off).End(id) <= t.tick
            <==> off.unit < |t.rising| && off.holds && t.rising[off.unit] == Rising(id, t.End(id))
    ensures CalledOff(t, off).End(id) <= t.tick ==> forall v | off.unit < v < |t.rising| :: t.rising[v].warper != id
    ensures CalledOff(t, off).End(id) > t.tick ==> CalledOff(t, off).End(id) == t.End(id)
  {
    hide After, AllCalledOff, Done, CalledOff;
    MetAges(events, deeds, t);
    if off.unit < |t.rising| {
      CallOffEnds(t, off);
    } else {
      NoneCalledOff(t, off);
    }
  }

  lemma MetAges(events: seq<Event>, deeds: Deeds, t: State)
    requires Meets(Flushed(After(Start(), events)), deeds, t)
    ensures Aged(t)
  {
    hide After, AllCalledOff, Done;
    RunAges(Start(), events);
    AgesOn(After(Start(), events), Flushed(After(Start(), events)));
    hide Aged;
    TickAges(Flushed(After(Start(), events)), deeds);
  }

  lemma NoneCalledOff(s: State, off: CallOff)
    requires off.unit >= |s.rising|
    ensures CalledOff(s, off) == s
  {
  }

  /** So calling an older unit off never makes ready a warper that a later one cools. */
  lemma {:induction false} OlderCallOffKeepsCooling(events: seq<Event>, deeds: Deeds, t: State, off: CallOff, later: nat)
    requires Meets(Flushed(After(Start(), events)), deeds, t)
    requires off.unit < later < |t.rising| && t.rising[later].warper == t.rising[off.unit].warper
    ensures var id := t.rising[later].warper;
            && (t.tick < t.End(id) ==> CalledOff(t, off).End(id) == t.End(id))
            && (CalledOff(t, off).End(id) <= t.tick <==> t.End(id) <= t.tick)
  {
    hide After, AllCalledOff, Done, CalledOff, Meets;
    CallOffEnds(t, off);
    if t.tick < t.End(t.rising[later].warper) {
      CoolingEndsExactly(events, deeds, t, off, t.rising[later].warper);
    }
  }

  // ─── Which orders land ────────────────────────────────────────────────────

  /** Whether the `i`-th order is due now, of a warper's, and would land on its ground. */
  predicate WouldLand(s: State, deeds: Deeds, i: nat, id: Id)
    requires i < |s.queue|
  {
    s.queue[i].due == Some(s.tick) && s.queue[i].order.warper == id && deeds.lands(s.queue[i].order)
  }

  ghost predicate NoneWouldLand(s: State, deeds: Deeds, n: nat, id: Id)
    requires n <= |s.queue|
  {
    forall k: nat | k < n :: !WouldLand(s, deeds, k, id)
  }

  /** What carrying the due orders out comes to when every warp-in takes some time: the
      first that would land cools a ready warper, no other of that warper's lands, and
      a warper with none, or still cooling down, stands where it stood. */
  lemma {:induction false} FirstDueLands(s: State, deeds: Deeds, n: nat, id: Id)
    requires n <= |s.queue| && forall o :: deeds.trainTime(o) > 0
    ensures var t := AllCarried(s, deeds, n);
            && (forall k: nat | k < n && s.End(id) <= s.tick && WouldLand(s, deeds, k, id) && NoneWouldLand(s, deeds, k, id) ::
                  t.End(id) == s.tick + deeds.trainTime(s.queue[k].order))
            && (s.tick < s.End(id) || NoneWouldLand(s, deeds, n, id) ==> t.End(id) == s.End(id))
  {
    if n > 0 {
      hide AllCarried, Carried, NoneWouldLand;
      FirstDueLands(s, deeds, n - 1, id);
      CarryingKeepsQueue(s, deeds, n - 1);
      CarriedNext(s, deeds, n);
      CarriedEnds(AllCarried(s, deeds, n - 1), s.queue[n - 1], deeds, id);
      NoneWouldLandNext(s, deeds, n, id);
    } else {
      CarriedNone(s, deeds);
    }
  }

  lemma NoneWouldLandNext(s: State, deeds: Deeds, n: nat, id: Id)
    requires 0 < n <= |s.queue|
    ensures NoneWouldLand(s, deeds, n, id) <==> NoneWouldLand(s, deeds, n - 1, id) && !WouldLand(s, deeds, n - 1, id)
    ensures NoneWouldLand(s, deeds, n - 1, id) || exists k: nat :: k < n - 1 && WouldLand(s, deeds, k, id) && NoneWouldLand(s, deeds, k, id)
  {
    if n > 1 && !NoneWouldLand(s, deeds, n - 1, id) {
      NoneWouldLandNext(s, deeds, n - 1, id);
    }
  }

  lemma CarriedEnds(s: State, q: Queued, deeds: Deeds, id: Id)
    ensures Carried(s, q, deeds).End(id)
            == if q.due == Some(s.tick) && q.order.warper == id && deeds.lands(q.order) && s.End(id) <= s.tick
               then s.tick + deeds.trainTime(q.order) else s.End(id)
  {
  }

  /** Each warper that is cooled has one new unit rising, ready when it is. */
  ghost predicate OneUnitEach(s: State, t: State) {
    && |s.rising| <= |t.rising| && t.rising[..|s.rising|] == s.rising
    && (forall u | |s.rising| <= u < |t.rising| ::
          s.End(t.rising[u].warper) <= s.tick < t.rising[u].readyAt == t.End(t.rising[u].warper))
    && (forall u, v | |s.rising| <= u < v < |t.rising| :: t.rising[u].warper != t.rising[v].warper)
    && (forall id | t.End(id) != s.End(id) :: exists u :: |s.rising| <= u < |t.rising| && t.rising[u].warper == id)
  }

  lemma {:induction false} OneUnitLandsEach(s: State, deeds: Deeds, n: nat)
    requires n <= |s.queue| && forall o :: deeds.trainTime(o) > 0
    ensures OneUnitEach(s, AllCarried(s, deeds, n))
  {
    if n > 0 {
      hide AllCarried;
      OneUnitLandsEach(s, deeds, n - 1);
      CarryingKeepsQueue(s, deeds, n - 1);
      CarriedNext(s, deeds, n);
      OneMoreUnit(s, AllCarried(s, deeds, n - 1), s.queue[n - 1], deeds);
    } else {
      CarriedNone(s, deeds);
    }
  }

  lemma CarriedNext(s: State, deeds: Deeds, n: nat)
    requires 0 < n <= |s.queue|
    ensures AllCarried(s, deeds, n) == Carried(AllCarried(s, deeds, n - 1), s.queue[n - 1], deeds)
  {
  }

  lemma CarriedNone(s: State, deeds: Deeds)
    ensures AllCarried(s, deeds, 0) == s
  {
  }

  lemma OneMoreUnit(s: State, t: State, q: Queued, deeds: Deeds)
    requires OneUnitEach(s, t) && t.tick == s.tick && deeds.trainTime(q.order) > 0
    ensures OneUnitEach(s, Carried(t, q, deeds))
  {
    if q.due == Some(t.tick) && deeds.lands(q.order) && t.End(q.order.warper) <= t.tick {
      var r := Rising(q.order.warper, t.tick + deeds.trainTime(q.order));
      forall id {
        CarriedEnds(t, q, deeds, id);
      }
      UnitAdded(s, t, Carried(t, q, deeds), r);
    }
  }

  lemma UnitAdded(s: State, t: State, next: State, r: Rising)
    requires OneUnitEach(s, t) && t.tick == s.tick
    requires next.rising == t.rising + [r] && t.End(r.warper) <= s.tick < r.readyAt
    requires forall id :: next.End(id) == if id == r.warper then r.readyAt else t.End(id)
    ensures OneUnitEach(s, next)
  {
    hide State.End;
    assert t.End(r.warper) == s.End(r.warper);
    assert forall u | |s.rising| <= u < |t.rising| :: next.rising[u] == t.rising[u] && t.rising[u].warper != r.warper;
    forall id | next.End(id) != s.End(id)
      ensures exists u :: |s.rising| <= u < |next.rising| && next.rising[u].warper == id
    {
      if id == r.warper {
        assert next.rising[|t.rising|].warper == id;
      } else {
        var u :| |s.rising| <= u < |t.rising| && t.rising[u].warper == id;
        assert next.rising[u].warper == id;
      }
    }
  }

  /** Whether what is left of a queue is what is not due, in the order it stood. */
  ghost predicate LeftAt(queue: seq<Queued>, tick: nat, left: seq<Queued>, places: seq<nat>) {
    && |places| == |left|
    && (forall k | 0 <= k < |places| :: places[k] < |queue| && left[k] == queue[places[k]] && left[k].due != Some(tick))
    && (forall k, l | 0 <= k < l < |places| :: places[k] < places[l])
    && (forall i: nat | i < |queue| && queue[i].due != Some(tick) :: i in places)
  }

  lemma {:induction false} LeftOverInOrder(queue: seq<Queued>, tick: nat) returns (places: seq<nat>)
    ensures LeftAt(queue, tick, LeftOver(queue, tick), places)
  {
    places := [];
    if queue != [] {
      var n := |queue| - 1;
      places := LeftOverInOrder(queue[..n], tick);
      LeftNext(queue[..n], tick, LeftOver(queue[..n], tick), places, queue[n]);
      assert queue == queue[..n] + [queue[n]];
      if queue[n].due != Some(tick) {
        places := places + [n];
      }
    }
  }

  lemma LeftNext(queue: seq<Queued>, tick: nat, left: seq<Queued>, places: seq<nat>, q: Queued)
    requires LeftAt(queue, tick, left, places)
    ensures q.due == Some(tick) ==> LeftAt(queue + [q], tick, left, places)
    ensures q.due != Some(tick) ==> LeftAt(queue + [q], tick, left + [q], places + [|queue|])
  {
    if q.due != Some(tick) {
      var more := places + [|queue|];
      assert more[|places|] == |queue|;
      forall i: nat | i < |queue| + 1 && (queue + [q])[i].due != Some(tick)
        ensures i in more
      {
        if i < |queue| {
          assert queue[i].due != Some(tick);
        }
      }
    }
  }

  // ─── What every run keeps ─────────────────────────────────────────────────

  /** No given order of a queue is on its way twice under one cooldown end. */
  ghost predicate NoTwinsDue(queue: seq<Queued>) {
    forall i, j | 0 <= i < j < |queue| && queue[i].order.given && queue[j].order.given ::
      !Twins(queue[i].order.Record(), queue[j].order.Record())
  }

  /** No warper of a queue has two orders given to it. */
  ghost predicate OneEach(queue: seq<Queued>) {
    forall i, j | 0 <= i < j < |queue| && queue[i].order.given && queue[j].order.given ::
      queue[i].order.warper != queue[j].order.warper
  }

  /** An order runs when its frame is reached, at most a latency and a tick after its click. */
  ghost predicate OnTime(s: State, q: Queued) {
    && q.order.tick <= s.tick
    && match q.due
       case None => if s.flushedTo == s.tick + SYNC_LATENCY then q.order.tick == s.tick else s.tick <= q.order.tick + 1
       case Some(due) => s.tick <= due <= s.flushedTo && q.order.tick + SYNC_LATENCY <= due <= q.order.tick + SYNC_LATENCY + 1
  }

  /** An order given out is recorded, under a cooldown end the warper has held. */
  ghost predicate Accounted(s: State, o: Order) {
    o.given ==> o.Record() in s.sent && o.cooldownEnd <= o.tick && o.cooldownEnd <= s.End(o.warper)
  }

  /** A record is of its own tick or an earlier one, under a cooldown end reached by
      then, and while its tick lasts its order is still on the way. */
  ghost predicate Recorded(s: State, r: Sent) {
    && r.cooldownEnd <= r.tick <= s.tick
    && (r.tick == s.tick ==> Ordered(s.queue, r))
  }

  ghost predicate Ordered(queue: seq<Queued>, r: Sent) {
    exists q :: q in queue && q.order.given && q.order.Record() == r
  }

  ghost predicate Valid(s: State) {
    && s.tick + SYNC_LATENCY - 1 <= s.flushedTo <= s.tick + SYNC_LATENCY
    && (forall r | r in s.sent :: Recorded(s, r))
    && NoTwins(s.sent)
    && (forall q | q in s.queue :: OnTime(s, q) && Accounted(s, q.order))
    && NoTwinsDue(s.queue)
  }

  /** The warper of an order given stands where the record found it, or cools down
      past what the command takes. */
  ghost predicate Held(s: State, o: Order) {
    o.given ==> s.End(o.warper) == o.cooldownEnd || o.tick + OVERLAP <= s.End(o.warper)
  }

  /** No warper has two orders given to it on their way, and none may get a second. */
  ghost predicate Exclusive(s: State) {
    OneEach(s.queue) && forall q | q in s.queue :: Held(s, q.order)
  }

  /** The least time a warp-in keeps its warper cooling for no order to overlap it. */
  const OVERLAP: nat := SYNC_LATENCY + 2

  ghost predicate Slow(trainTime: Order -> nat) {
    forall o :: OVERLAP <= trainTime(o)
  }

  /** Whether some call-off of a list resets a warper. */
  ghost predicate ResetBy(s: State, offs: seq<CallOff>, id: Id)
    decreases |offs|
  {
    offs != [] &&
    var t, off := AllCalledOff(s, offs[..|offs| - 1]), offs[|offs| - 1];
    ResetBy(s, offs[..|offs| - 1], id) || (Resets(t, off) && t.rising[off.unit].warper == id)
  }

  /** Whether an order of a warper's lands in a tick. */
  ghost predicate LandsFor(s: State, deeds: Deeds, id: Id) {
    LandsAmong(s, deeds, id, |s.queue|)
  }

  ghost predicate LandsAmong(s: State, deeds: Deeds, id: Id, n: nat)
    requires n <= |s.queue|
  {
    exists i :: 0 <= i < n && s.queue[i].due == Some(s.tick) && s.queue[i].order.warper == id && deeds.lands(s.queue[i].order)
  }

  /** Whether a call-off has a tick's last word on a warper's cooldown: one after the
      warp-ins due, or one before them with none of the warper's landing. */
  ghost predicate LeftReset(s: State, deeds: Deeds, id: Id) {
    || (ResetBy(s, deeds.first, id) && !LandsFor(s, deeds, id))
    || ResetBy(Done(s, deeds), deeds.last, id)
  }

  /** Call-offs that leave no warper reset while an order given to it under another
      cooldown end is still on its way after the tick. */
  ghost predicate Harmless(s: State, deeds: Deeds) {
    forall q | q in s.queue && q.order.given && q.due != Some(s.tick) && LeftReset(s, deeds, q.order.warper) ::
      q.order.cooldownEnd == s.tick
  }

  /** An event whose call-offs, if it has any, are harmless. */
  ghost predicate Calm(s: State, e: Event) {
    match e
    case Update(false, deeds) => Harmless(Flushed(s), deeds)
    case _ => true
  }

  ghost predicate CalmRun(s: State, events: seq<Event>)
    decreases |events|
  {
    events == [] ||
    var init := events[..|events| - 1];
    CalmRun(s, init) && Calm(After(s, init), events[|events| - 1])
  }

  /** Whether every warp-in of a run cools its warper longer than a command takes to land. */
  ghost predicate SlowRun(events: seq<Event>) {
    forall e | e in events && e.Update? :: Slow(e.deeds.trainTime)
  }

  /** Whether some click would put two orders for one warper on their way. */
  ghost predicate MayDouble(s: State) {
    exists leading, standing :: !OneEach(Clicked(s, leading, standing).queue)
  }

  // ─── Clicks ───────────────────────────────────────────────────────────────

  /** A record outlasts a click and is no twin of what the click records. */
  ghost predicate RecordStands(w: World, sent: seq<Sent>, leading: Id, s: Sent) {
    && s in SentAfter(w, sent, leading)
    && (Chosen(w, sent, leading).Some? ==>
          var id := Chosen(w, sent, leading).value;
          !Twins(s, Sent(id, w.tick, w.cooldownEnd(id))))
  }

  lemma ClickKeepsRecord(w: World, sent: seq<Sent>, leading: Id, s: Sent)
    requires NoTwins(sent) && s in sent && s.InFlight(w.tick)
    ensures RecordStands(w, sent, leading, s)
  {
    ClickKeepsApart(w, sent, leading);
    var kept := Retained(sent, w.tick);
    assert s in kept;
    var j :| 0 <= j < |kept| && kept[j] == s;
    assert SentAfter(w, sent, leading)[j] == s;
    assert Chosen(w, sent, leading).Some? ==> |SentAfter(w, sent, leading)| == |kept| + 1;
  }

  lemma QueuedInFlight(s: State, q: Queued)
    requires OnTime(s, q)
    ensures q.order.Record().InFlight(s.tick)
  {
  }

  /** What a click leaves of one order queued before it. */
  lemma ClickKeepsOrder(s: State, leading: Id, standing: Standing, q: Queued)
    requires Valid(s) && q in s.queue
    ensures var t, chosen := Clicked(s, leading, standing), Chosen(s.Seen(standing), s.sent, leading);
            && OnTime(t, q) && Accounted(t, q.order) && (Held(s, q.order) ==> Held(t, q.order))
            && (chosen.Some? && q.order.given ==>
                  && !Twins(q.order.Record(), Sent(chosen.value, s.tick, s.End(chosen.value)))
                  && (Held(s, q.order) ==> chosen.value != q.order.warper))
  {
    hide Chosen, StillSent, Retained, NoTwins, Candidates;
    var w := s.Seen(standing);
    assert OnTime(s, q) && Accounted(s, q.order);
    if q.order.given {
      QueuedInFlight(s, q);
      ClickKeepsRecord(w, s.sent, leading, q.order.Record());
      if Held(s, q.order) {
        NotGivenAgain(w, s.sent, leading, q.order.Record());
      }
    }
  }

  /** Clicks keep the records and the queue apart. */
  lemma ClickIsKept(s: State, leading: Id, standing: Standing)
    requires Valid(s)
    ensures Valid(Clicked(s, leading, standing))
    ensures Exclusive(s) ==> Exclusive(Clicked(s, leading, standing))
  {
    hide Chosen, NoTwins, Twins, OnTime, Accounted, Held, Recorded, SentAfter;
    var w, t := s.Seen(standing), Clicked(s, leading, standing);
    ClickKeepsApart(w, s.sent, leading);
    forall r | r in t.sent
      ensures Recorded(t, r)
    {
      ClickRecords(s, leading, standing, r);
    }
    var order := t.queue[|s.queue|].order;
    ClickAccounts(s, leading, standing);
    forall q | q in s.queue
      ensures OnTime(t, q) && Accounted(t, q.order) && (Held(s, q.order) ==> Held(t, q.order))
      ensures q.order.given && order.given ==>
                !Twins(q.order.Record(), order.Record()) && (Held(s, q.order) ==> q.order.warper != order.warper)
    {
      ClickKeepsOrder(s, leading, standing, q);
    }
    assert forall i | 0 <= i < |s.queue| :: t.queue[i] == s.queue[i] && s.queue[i] in s.queue;
  }

  lemma ClickRecords(s: State, leading: Id, standing: Standing, r: Sent)
    requires Valid(s) && r in Clicked(s, leading, standing).sent
    ensures Recorded(Clicked(s, leading, standing), r)
  {
    hide StillSent, Retained, NoTwins, NoTwinsDue, Candidates, OnTime, Accounted;
    var t, chosen := Clicked(s, leading, standing), Chosen(s.Seen(standing), s.sent, leading);
    if r in Retained(s.sent, s.tick) {
      assert Recorded(s, r);
      if r.tick == s.tick {
        var q :| q in s.queue && q.order.given && q.order.Record() == r;
        assert q in t.queue;
      }
    } else {
      assert t.queue[|s.queue|] in t.queue && t.queue[|s.queue|].order.Record() == r;
    }
  }

  lemma ClickAccounts(s: State, leading: Id, standing: Standing)
    requires Valid(s)
    ensures var t := Clicked(s, leading, standing);
            var q := t.queue[|s.queue|];
            OnTime(t, q) && Accounted(t, q.order) && Held(t, q.order)
  {
    hide StillSent, Retained, NoTwins, Candidates;
    var w := s.Seen(standing);
    var chosen, sent := Chosen(w, s.sent, leading), SentAfter(w, s.sent, leading);
    if chosen.Some? {
      assert sent[|sent| - 1] == Sent(chosen.value, s.tick, s.End(chosen.value));
    }
  }

  // ─── Flushes and ticks ────────────────────────────────────────────────────

  lemma FlushKeeps(s: State)
    requires Valid(s)
    ensures Valid(Flushed(s)) && Flushed(s).flushedTo == s.tick + SYNC_LATENCY
    ensures Exclusive(s) ==> Exclusive(Flushed(s))
  {
    hide NoTwins, Twins;
    var t := Flushed(s);
    forall q | q in t.queue
      ensures OnTime(t, q) && Accounted(t, q.order) && (Exclusive(s) ==> Held(t, q.order))
    {
      var i :| 0 <= i < |t.queue| && t.queue[i] == q;
      assert s.queue[i] in s.queue;
    }
    forall r | r in t.sent
      ensures Recorded(t, r)
    {
      assert Recorded(s, r);
      if r.tick == s.tick {
        var i :| 0 <= i < |s.queue| && s.queue[i].order.given && s.queue[i].order.Record() == r;
        assert t.queue[i] in t.queue && t.queue[i].order == s.queue[i].order;
      }
    }
  }

  /** A warper some call-off resets stands at this tick; any other where it stood. */
  lemma {:induction false} ResetEnds(s: State, offs: seq<CallOff>, id: Id)
    ensures AllCalledOff(s, offs).End(id) == if ResetBy(s, offs, id) then s.tick else s.End(id)
    decreases |offs|
  {
    if offs != [] {
      ResetEnds(s, offs[..|offs| - 1], id);
      CallOffsKeepQueue(s, offs[..|offs| - 1]);
    }
  }

  /** Where a warper stands after the due orders: where it stood, unless one of its
      lands, and then cooling down past any order on its way. */
  lemma {:induction false} CarryingEnds(s: State, deeds: Deeds, n: nat, id: Id)
    requires n <= |s.queue|
    ensures var end := AllCarried(s, deeds, n).End(id);
            && (end == s.End(id) || (s.tick <= end && (Slow(deeds.trainTime) ==> s.tick + OVERLAP <= end)))
            && (!LandsAmong(s, deeds, id, n) ==> end == s.End(id))
            && (LandsAmong(s, deeds, id, n) && s.End(id) <= s.tick && Slow(deeds.trainTime) ==> s.tick + OVERLAP <= end)
  {
    if n > 0 {
      CarryingEnds(s, deeds, n - 1, id);
      CarryingKeepsQueue(s, deeds, n - 1);
      assert LandsAmong(s, deeds, id, n) <==>
             LandsAmong(s, deeds, id, n - 1)
             || (s.queue[n - 1].due == Some(s.tick) && s.queue[n - 1].order.warper == id && deeds.lands(s.queue[n - 1].order));
    }
  }

  /** Where a warper stands after a tick: reset to it when a call-off has the last
      word, else where it stood, or cooling down past any order on its way. */
  lemma TickEnds(s: State, deeds: Deeds, id: Id)
    ensures var end := Ticked(s, deeds).End(id);
            && (LeftReset(s, deeds, id) && Slow(deeds.trainTime) ==> end == s.tick)
            && (!LeftReset(s, deeds, id) && Slow(deeds.trainTime) ==> end == s.End(id) || s.tick + OVERLAP <= end)
            && (end == s.End(id) || s.tick <= end)
  {
    hide AllCalledOff, AllCarried, LeftOver, ResetBy, LandsAmong;
    var off, done := AllCalledOff(s, deeds.first), Done(s, deeds);
    CallOffsKeepQueue(s, deeds.first);
    ResetEnds(s, deeds.first, id);
    CarryingEnds(off, deeds, |off.queue|, id);
    LandsSame(s, off, deeds, id, |off.queue|);
    CarryingKeepsQueue(off, deeds, |off.queue|);
    ResetEnds(done, deeds.last, id);
  }

  lemma LandsSame(s: State, t: State, deeds: Deeds, id: Id, n: nat)
    requires s.queue == t.queue && s.tick == t.tick && n <= |s.queue|
    ensures LandsAmong(s, deeds, id, n) == LandsAmong(t, deeds, id, n)
  {
  }

  lemma LeftOverLast(queue: seq<Queued>, tick: nat, i: nat)
    requires queue != [] && i < |LeftOver(queue[..|queue| - 1], tick)|
    ensures exists j :: 0 <= j < |queue| - 1 && queue[j] == LeftOver(queue[..|queue| - 1], tick)[i]
  {
    var init := queue[..|queue| - 1];
    assert LeftOver(init, tick)[i] in init;
    var j :| 0 <= j < |init| && init[j] == LeftOver(init, tick)[i];
    assert queue[j] == init[j];
  }

  lemma {:induction false} LeftOverTwins(queue: seq<Queued>, tick: nat)
    requires NoTwinsDue(queue)
    ensures NoTwinsDue(LeftOver(queue, tick))
  {
    if queue != [] {
      var init := queue[..|queue| - 1];
      LeftOverTwins(init, tick);
      var rest := LeftOver(init, tick);
      forall i | 0 <= i < |rest|
        ensures exists j :: 0 <= j < |init| && queue[j] == rest[i]
      {
        LeftOverLast(queue, tick, i);
      }
    }
  }

  lemma {:induction false} LeftOverOneEach(queue: seq<Queued>, tick: nat)
    requires OneEach(queue)
    ensures OneEach(LeftOver(queue, tick))
  {
    if queue != [] {
      var init := queue[..|queue| - 1];
      LeftOverOneEach(init, tick);
      var rest := LeftOver(init, tick);
      forall i | 0 <= i < |rest|
        ensures exists j :: 0 <= j < |init| && queue[j] == rest[i]
      {
        LeftOverLast(queue, tick, i);
      }
    }
  }

  /** What is left of the queue after a tick, and of the records. */
  lemma TickLeaves(s: State, deeds: Deeds)
    ensures var t := Ticked(s, deeds);
            && t.queue == LeftOver(s.queue, s.tick) && t.sent == s.sent
            && t.tick == s.tick + 1 && t.flushedTo == s.flushedTo
  {
    hide AllCalledOff, AllCarried, LeftOver;
    var off, done := AllCalledOff(s, deeds.first), Done(s, deeds);
    CallOffsKeepQueue(s, deeds.first);
    CarryingKeepsQueue(off, deeds, |off.queue|);
    CallOffsKeepQueue(done, deeds.last);
  }

  /** A tick keeps every order on time and accounted for, and every warper to one
      order exactly when its call-offs are harmless. */
  lemma {:induction false} TickKeeps(s: State, deeds: Deeds)
    requires Valid(s) && s.flushedTo == s.tick + SYNC_LATENCY
    ensures Valid(Ticked(s, deeds))
    ensures Exclusive(s) && Slow(deeds.trainTime) ==> (Exclusive(Ticked(s, deeds)) <==> Harmless(s, deeds))
  {
    hide NoTwins, NoTwinsDue, OneEach, Ticked, LeftOver, LeftReset;
    var t := Ticked(s, deeds);
    TickLeaves(s, deeds);
    LeftOverTwins(s.queue, s.tick);
    if OneEach(s.queue) {
      LeftOverOneEach(s.queue, s.tick);
    }
    forall q | q in t.queue
      ensures q in s.queue && OnTime(s, q) && Accounted(s, q.order) && q.due != Some(s.tick)
      ensures OnTime(t, q) && Accounted(t, q.order)
      ensures q.order.given && Held(s, q.order) && Slow(deeds.trainTime) ==>
                (Held(t, q.order) <==> (LeftReset(s, deeds, q.order.warper) ==> q.order.cooldownEnd == s.tick))
    {
      TickEnds(s, deeds, q.order.warper);
    }
    assert forall q :: q in t.queue <==> q in s.queue && q.due != Some(s.tick);
    assert forall r | r in t.sent :: Recorded(s, r);
  }

  /** A warper with an order on its way, its cooldown over and no record standing at
      where it ended: a click doubles it. */
  lemma OpenDoubles(s: State, q: Queued)
    requires q in s.queue && q.order.given && s.End(q.order.warper) <= s.tick
    requires forall r | r in s.sent && r.warper == q.order.warper && r.InFlight(s.tick) :: r.cooldownEnd != s.End(q.order.warper)
    ensures MayDouble(s)
  {
    hide Chosen, OneEach;
    var id := q.order.warper;
    assert !StillSent(s.Seen(Alone(id)), s.sent, id);
    ChosenAlone(s, id);
    var t := Clicked(s, id, Alone(id));
    var i :| 0 <= i < |s.queue| && s.queue[i] == q;
    TwoIsNotOne(t.queue, i, |s.queue|);
  }

  lemma TwoIsNotOne(queue: seq<Queued>, i: nat, j: nat)
    requires i < j < |queue| && queue[i].order.given && queue[j].order.given && queue[i].order.warper == queue[j].order.warper
    ensures !OneEach(queue)
  {
  }

  /** Between updates no click doubles a warper kept to one order. */
  lemma ExclusiveIsClosed(s: State)
    requires Valid(s) && Exclusive(s)
    ensures !MayDouble(s)
  {
    hide Valid, Clicked, OneEach;
    forall leading, standing
      ensures OneEach(Clicked(s, leading, standing).queue)
    {
      ClickIsKept(s, leading, standing);
    }
  }

  /**
   One update of a run in which every warp-in cools its warper long enough: some
   click after it puts two orders for one warper on their way exactly when its
   call-offs are not harmless.
   */
  lemma {:induction false} UpdateExactly(s: State, deeds: Deeds)
    requires Valid(s) && Exclusive(s) && Slow(deeds.trainTime)
    ensures var t := Stepped(s, Update(false, deeds));
            && (Exclusive(t) <==> Harmless(Flushed(s), deeds))
            && (MayDouble(t) <==> !Harmless(Flushed(s), deeds))
  {
    hide Valid, Exclusive, Flushed, Ticked, Harmless, MayDouble, Slow;
    var f, t := Flushed(s), Stepped(s, Update(false, deeds));
    FlushKeeps(s);
    FlushStays(s);
    TickKeeps(f, deeds);
    if Exclusive(t) {
      ExclusiveIsClosed(t);
    } else {
      HarmfulDoubles(f, deeds);
    }
  }

  lemma HarmfulDoubles(s: State, deeds: Deeds)
    requires Valid(s) && Exclusive(s) && Slow(deeds.trainTime) && !Harmless(s, deeds)
    ensures MayDouble(Ticked(s, deeds))
  {
    hide NoTwins, NoTwinsDue, Ticked, LeftOver, LeftReset, MayDouble, Held, Accounted, Slow;
    var t := Ticked(s, deeds);
    TickLeaves(s, deeds);
    var q :| q in s.queue && q.order.given && q.due != Some(s.tick)
             && LeftReset(s, deeds, q.order.warper) && q.order.cooldownEnd != s.tick;
    TickEnds(s, deeds, q.order.warper);
    forall r | r in t.sent && r.warper == q.order.warper
      ensures r.cooldownEnd != s.tick
    {
      assert Recorded(s, r);
      if r.cooldownEnd == s.tick {
        var other :| other in s.queue && other.order.given && other.order.Record() == r;
        SameOrder(s.queue, q, other);
      }
    }
    assert q in t.queue;
    OpenDoubles(t, q);
  }

  lemma SameOrder(queue: seq<Queued>, a: Queued, b: Queued)
    requires OneEach(queue) && a in queue && b in queue && a.order.given && b.order.given && a.order.warper == b.order.warper
    ensures a == b
  {
    var i :| 0 <= i < |queue| && queue[i] == a;
    var j :| 0 <= j < |queue| && queue[j] == b;
  }

  /** Every step keeps what a run promises. */
  lemma StepKeeps(s: State, e: Event)
    requires Valid(s)
    ensures Valid(Stepped(s, e))
    ensures Exclusive(s) && (e.Update? && !e.blocked ==> Slow(e.deeds.trainTime)) ==>
              (Exclusive(Stepped(s, e)) <==> Calm(s, e)) && (MayDouble(Stepped(s, e)) <==> !Calm(s, e))
  {
    hide MayDouble, Slow;
    match e
    case Click(leading, standing) =>
      hide Valid, Exclusive, Clicked;
      ClickIsKept(s, leading, standing);
      if Exclusive(s) {
        ExclusiveIsClosed(Clicked(s, leading, standing));
      }
    case Update(blocked, deeds) =>
      hide Valid, Exclusive, Flushed, Ticked, Harmless;
      FlushKeeps(s);
      if blocked {
        if Exclusive(s) {
          ExclusiveIsClosed(Flushed(s));
        }
      } else {
        FlushStays(s);
        TickKeeps(Flushed(s), deeds);
        if Exclusive(s) && Slow(deeds.trainTime) {
          UpdateExactly(s, deeds);
        }
      }
    case Risen(_) =>
      RisenKeeps(s, e);
      if Exclusive(s) {
        ExclusiveIsClosed(Stepped(s, e));
      }
  }

  lemma RisenKeeps(s: State, e: Event)
    requires Valid(s) && e.Risen?
    ensures Valid(Stepped(s, e)) && (Exclusive(s) ==> Exclusive(Stepped(s, e)))
  {
    var t := Stepped(s, e);
    hide NoTwins, NoTwinsDue, OneEach;
    assert forall q | q in s.queue ::
        (OnTime(s, q) ==> OnTime(t, q)) && (Accounted(s, q.order) ==> Accounted(t, q.order)) && (Held(s, q.order) ==> Held(t, q.order));
    assert forall r | r in s.sent :: Recorded(s, r) ==> Recorded(t, r);
  }

  lemma FlushStays(s: State)
    ensures Flushed(s).tick == s.tick
  {
  }

  lemma {:induction false} RunKeeps(s: State, events: seq<Event>)
    requires Valid(s)
    ensures Valid(After(s, events))
    ensures Exclusive(s) && SlowRun(events) && CalmRun(s, events) ==> Exclusive(After(s, events))
    decreases |events|
  {
    if events != [] {
      hide Valid, Exclusive, Stepped, Calm, MayDouble, Slow;
      var init, last := events[..|events| - 1], events[|events| - 1];
      assert events == init + [last];
      RunKeeps(s, init);
      StepKeeps(After(s, init), last);
    }
  }

  /**
   Over a whole run in which every warp-in cools its warper long enough, no click
   at any point would put two orders for one warper on their way exactly when
   every update's call-offs are harmless.
   */
  lemma {:induction false} RunExactly(s: State, events: seq<Event>)
    requires Valid(s) && Exclusive(s) && SlowRun(events)
    ensures CalmRun(s, events) <==> forall n | 0 <= n <= |events| :: !MayDouble(After(s, events[..n]))
    decreases |events|
  {
    hide Valid, Exclusive, Stepped, Calm, MayDouble, Slow;
    if events == [] {
      assert events[..0] == [];
      ExclusiveIsClosed(s);
    } else {
      var init, last := events[..|events| - 1], events[|events| - 1];
      assert events == init + [last] && events[..|events|] == events;
      assert forall n | 0 <= n <= |init| :: events[..n] == init[..n];
      RunExactly(s, init);
      RunKeeps(s, init);
      if CalmRun(s, init) {
        StepKeeps(After(s, init), last);
      }
    }
  }

  /** A record whose latency has lapsed has no command on its way any more. */
  lemma LapsedHasRun(s: State, r: Sent)
    requires Valid(s) && !r.InFlight(s.tick)
    ensures forall q | q in s.queue && q.order.given :: q.order.Record() != r
  {
    forall q | q in s.queue && q.order.given
      ensures q.order.Record() != r
    {
      assert OnTime(s, q);
    }
  }

  // ─── A warper offered again ───────────────────────────────────────────────

  /** Whether no click of a run goes to a warper. */
  ghost predicate PassedOver(s: State, events: seq<Event>, id: Id)
    decreases |events|
  {
    events == [] ||
    var init, last := events[..|events| - 1], events[|events| - 1];
    && PassedOver(s, init, id)
    && (last.Click? ==> Chosen(After(s, init).Seen(last.standing), After(s, init).sent, last.leading) != Some(id))
  }

  /** A record that is a warper's latest, kept as long as it is in flight. */
  ghost predicate Latest(s: State, r: Sent) {
    && r.tick <= s.tick
    && (forall other | other in s.sent && other.warper == r.warper :: other.tick <= r.tick)
    && (r in s.sent || !r.InFlight(s.tick))
  }

  lemma {:induction false} LatestStays(s: State, events: seq<Event>, r: Sent)
    requires Latest(s, r) && PassedOver(s, events, r.warper)
    ensures Latest(After(s, events), r)
    decreases |events|
  {
    if events != [] {
      hide Chosen, Stepped, Candidates, StillSent;
      var init, last := events[..|events| - 1], events[|events| - 1];
      LatestStays(s, init, r);
      LatestStep(After(s, init), last, r);
    }
  }

  lemma LatestStep(s: State, e: Event, r: Sent)
    requires Latest(s, r)
    requires e.Click? ==> Chosen(s.Seen(e.standing), s.sent, e.leading) != Some(r.warper)
    ensures Latest(Stepped(s, e), r)
  {
    hide Chosen, Flushed, Ticked;
    match e
    case Click(leading, standing) =>
      if r in s.sent && r.InFlight(s.tick) {
        ClickKeeps(s.Seen(standing), s.sent, leading, r);
      }
    case Update(blocked, deeds) =>
      FlushSends(s);
      if !blocked {
        TickLeaves(Flushed(s), deeds);
      }
    case Risen(_) =>
  }

  lemma FlushSends(s: State)
    ensures Flushed(s).sent == s.sent && Flushed(s).tick == s.tick
  {
  }

  /** Before an eligible warper's latest record lapses it is passed over while its
      cooldown stands where the record found it; from then on it is offered. */
  lemma LatestTells(s: State, r: Sent, leading: Id, standing: Standing)
    requires NoTwins(s.sent) && Latest(s, r) && s.End(r.warper) == r.cooldownEnd
    requires Eligible(s.Seen(standing), leading, r.warper)
    ensures r.warper in Candidates(s.Seen(standing), s.sent, leading) <==> r.tick + SYNC_LATENCY + 2 <= s.tick
  {
    var w := s.Seen(standing);
    OfferedUnlessSent(w, s.sent, leading, r.warper);
    if r in s.sent {
      OfferedAgain(w, s.sent, leading, r);
    } else if StillSent(w, s.sent, r.warper) {
      var i :| 0 <= i < |s.sent| && s.sent[i].warper == r.warper && s.sent[i].InFlight(s.tick);
      assert s.sent[i] in s.sent;
    }
  }

  /**
   In any run: a warper given a click, no click since, whose cooldown has not moved
   — its command still on its way, or refused — is passed over for the latency and
   a tick, and offered again from then on.
   */
  lemma {:induction false} RefusedIsOfferedAgain(past: seq<Event>, click: Event, since: seq<Event>, id: Id,
                                                 leading: Id, standing: Standing)
    requires click.Click?
    requires var s := After(Start(), past); Chosen(s.Seen(click.standing), s.sent, click.leading) == Some(id)
    requires PassedOver(Stepped(After(Start(), past), click), since, id)
    requires var t := After(Start(), past + [click] + since);
             t.End(id) == After(Start(), past).End(id) && Eligible(t.Seen(standing), leading, id)
    ensures var s, t := After(Start(), past), After(Start(), past + [click] + since);
            id in Candidates(t.Seen(standing), t.sent, leading) <==> s.tick + SYNC_LATENCY + 2 <= t.tick
  {
    hide Chosen, Stepped, Candidates, StillSent, Valid, Latest, Eligible, Exclusive;
    var s := After(Start(), past);
    StartsValid();
    RunKeeps(Start(), past);
    AfterNext(Start(), past, click);
    AfterJoins(Start(), past + [click], since);
    RunKeeps(Start(), past + [click] + since);
    var r := Sent(id, s.tick, s.End(id));
    GivenIsLatest(s, click, id);
    LatestStays(Stepped(s, click), since, r);
    ValidApart(After(Start(), past + [click] + since));
    LatestTells(After(Start(), past + [click] + since), r, leading, standing);
  }

  lemma StartsValid()
    ensures Valid(Start())
  {
  }

  lemma ValidApart(s: State)
    requires Valid(s)
    ensures NoTwins(s.sent)
  {
  }

  lemma GivenIsLatest(s: State, click: Event, id: Id)
    requires Valid(s) && click.Click? && Chosen(s.Seen(click.standing), s.sent, click.leading) == Some(id)
    ensures Latest(Stepped(s, click), Sent(id, s.tick, s.End(id)))
  {
    hide Chosen, NoTwins, NoTwinsDue, OnTime, Accounted;
    assert forall r | r in s.sent :: Recorded(s, r);
  }

  lemma {:induction false} AfterJoins(s: State, first: seq<Event>, rest: seq<Event>)
    ensures After(s, first + rest) == After(After(s, first), rest)
    decreases |rest|
  {
    hide After, Stepped;
    if rest == [] {
      assert first + rest == first;
      AfterNone(After(s, first));
    } else {
      var init, last := rest[..|rest| - 1], rest[|rest| - 1];
      AfterJoins(s, first, init);
      assert first + rest == (first + init) + [last] && rest == init + [last];
      AfterNext(s, first + init, last);
      AfterNext(After(s, first), init, last);
    }
  }

  // ─── A call-off that doubles ──────────────────────────────────────────────

  /** A lone warper that stands on the map and may warp whenever it has cooled down. */
  function Alone(id: Id): Standing {
    Standing([id], (i: Id) => i == id, (_: Id, _: Id) => true, (_: Id) => true)
  }

  /** A lone warper takes the click when it is ready and no record stands against it. */
  lemma ChosenAlone(s: State, id: Id)
    requires s.End(id) <= s.tick && !StillSent(s.Seen(Alone(id)), s.sent, id)
    ensures Chosen(s.Seen(Alone(id)), s.sent, id) == Some(id)
    ensures Clicked(s, id, Alone(id))
            == s.(sent := Retained(s.sent, s.tick) + [Sent(id, s.tick, s.End(id))],
                  queue := s.queue + [Queued(Order(id, true, s.tick, s.End(id)), None)])
  {
    var w := s.Seen(Alone(id));
    assert Offered(w.selection, id)[0] == id;
    assert Candidates(w, s.sent, id)[0] == id;
  }

  /** An update that lands what is due, cooling its warper for the shortest time no
      orders overlap at, and calls off what it is told to. */
  function Lands(offs: seq<CallOff>): Event {
    Update(false, Deeds(offs, (_: Order) => true, (_: Order) => OVERLAP, []))
  }

  /** Nothing due and nothing called off: the tick goes by. */
  lemma TickGoesBy(s: State)
    requires s.flushedTo == s.tick + SYNC_LATENCY - 1
    requires forall i | 0 <= i < |s.queue| :: s.queue[i].due != Some(s.tick)
    ensures Stepped(s, Lands([])) == s.(tick := s.tick + 1, flushedTo := s.tick + SYNC_LATENCY,
                                        queue := Scheduled(s.queue, s.tick + SYNC_LATENCY))
  {
    hide AllCarried, LeftOver, Carried;
    var t, deeds := Flushed(s), Lands([]).deeds;
    NothingDue(t, deeds, |t.queue|);
    NothingLeaves(t.queue, t.tick);
  }

  lemma {:induction false} NothingDue(s: State, deeds: Deeds, n: nat)
    requires n <= |s.queue| && forall i | 0 <= i < |s.queue| :: s.queue[i].due != Some(s.tick)
    ensures AllCarried(s, deeds, n) == s
  {
    if n > 0 {
      NothingDue(s, deeds, n - 1);
    }
  }

  lemma {:induction false} NothingLeaves(queue: seq<Queued>, tick: nat)
    requires forall i | 0 <= i < |queue| :: queue[i].due != Some(tick)
    ensures LeftOver(queue, tick) == queue
  {
    hide LeftOver;
    if queue == [] {
      LeftOverNone(tick);
    } else {
      var init, last := queue[..|queue| - 1], queue[|queue| - 1];
      NothingLeaves(init, tick);
      assert queue == init + [last];
      LeftOverNext(init, last, tick);
    }
  }

  lemma LeftOverNone(tick: nat)
    ensures LeftOver([], tick) == []
  {
  }

  lemma LeftOverNext(queue: seq<Queued>, q: Queued, tick: nat)
    ensures LeftOver(queue + [q], tick) == if q.due == Some(tick) then LeftOver(queue, tick) else LeftOver(queue, tick) + [q]
  {
    assert (queue + [q])[..|queue|] == queue;
  }

  /** Click, land, cool down, click again, call the first unit off, click: the
      warper has two orders on their way, though every warp-in cools it long enough. */
  function DoublingRun(id: Id): seq<Event> {
    [Click(id, Alone(id)), Lands([]), Lands([]), Lands([]), Lands([]), Lands([]), Lands([]),
     Click(id, Alone(id)), Lands([]), Lands([CallOff(0, true)]), Click(id, Alone(id))]
  }

  lemma {:induction false} AfterNext(s: State, events: seq<Event>, e: Event)
    ensures After(s, events + [e]) == Stepped(After(s, events), e)
  {
    assert (events + [e])[..|events|] == events;
  }

  lemma RunNext(id: Id, i: nat)
    requires i < |DoublingRun(id)|
    ensures After(Start(), DoublingRun(id)[..i + 1]) == Stepped(After(Start(), DoublingRun(id)[..i]), DoublingRun(id)[i])
  {
    hide After, Stepped, DoublingRun;
    var run := DoublingRun(id);
    AfterNext(Start(), run[..i], run[i]);
    assert run[..i + 1] == run[..i] + [run[i]];
  }

  /** The first click's order lands at tick two. */
  lemma FirstLands(id: Id)
    ensures After(Start(), DoublingRun(id)[..4]) == State(3, 4, [], [Sent(id, 0, 0)], map[id := 6], [Rising(id, 6)])
  {
    hide Stepped, After;
    var run, order := DoublingRun(id), Order(id, true, 0, 0);
    var a := State(0, 1, [Queued(order, None)], [Sent(id, 0, 0)], map[], []);
    AfterNone(Start());
    assert run[..0] == [];
    RunNext(id, 0);
    assert After(Start(), run[..1]) == a by {
      ClickAlone(Start(), id);
    }
    var b := State(1, 2, [Queued(order, Some(2))], a.sent, map[], []);
    RunNext(id, 1);
    assert After(Start(), run[..2]) == b by {
      TickGoesBy(a);
    }
    var d := b.(tick := 2, flushedTo := 3);
    RunNext(id, 2);
    assert After(Start(), run[..3]) == d by {
      TickGoesBy(b);
    }
    RunNext(id, 3);
    OrderLands(d, order);
  }

  /** And its warper has cooled down at tick six. */
  lemma CooledDown(id: Id)
    ensures After(Start(), DoublingRun(id)[..7]) == State(6, 7, [], [Sent(id, 0, 0)], map[id := 6], [Rising(id, 6)])
  {
    hide Stepped, After;
    FirstLands(id);
    var e := State(3, 4, [], [Sent(id, 0, 0)], map[id := 6], [Rising(id, 6)]);
    RunNext(id, 4);
    TickGoesBy(e);
    RunNext(id, 5);
    TickGoesBy(e.(tick := 4, flushedTo := 5));
    RunNext(id, 6);
    TickGoesBy(e.(tick := 5, flushedTo := 6));
  }

  lemma AfterNone(s: State)
    ensures After(s, []) == s
  {
  }

  lemma ClickAlone(s: State, id: Id)
    requires s.End(id) <= s.tick && !StillSent(s.Seen(Alone(id)), s.sent, id)
    ensures Stepped(s, Click(id, Alone(id)))
            == s.(sent := Retained(s.sent, s.tick) + [Sent(id, s.tick, s.End(id))],
                  queue := s.queue + [Queued(Order(id, true, s.tick, s.End(id)), None)])
  {
    ChosenAlone(s, id);
  }

  lemma OrderLands(s: State, order: Order)
    requires s.tick == 2 && s.flushedTo == 3 && s.queue == [Queued(order, Some(2))] && s.End(order.warper) <= 2
    ensures Stepped(s, Lands([]))
            == s.(tick := 3, flushedTo := 4, queue := [], cooldowns := s.cooldowns[order.warper := 6],
                  rising := s.rising + [Rising(order.warper, 6)])
  {
    var t, deeds := Flushed(s), Lands([]).deeds;
    assert AllCarried(t, deeds, 0) == t;
    assert AllCarried(t, deeds, 1) == Carried(t, t.queue[0], deeds);
    assert t.queue == [Queued(order, Some(2))] && LeftOver([], 2) == [] && t.queue[..0] == [];
    assert LeftOver(t.queue, 2) == [];
  }

  /** The first unit is called off while the second order is on its way. */
  lemma CallOffResets(s: State, id: Id, order: Order)
    requires s.tick == 7 && s.flushedTo == 8 && s.queue == [Queued(order, Some(8))]
    requires s.cooldowns == map[id := 6] && s.rising == [Rising(id, 6)]
    ensures Stepped(s, Lands([CallOff(0, true)])) == s.(tick := 8, flushedTo := 9, cooldowns := map[id := 7], rising := [])
  {
    var offs := [CallOff(0, true)];
    var t, deeds := Flushed(s), Lands(offs).deeds;
    assert t == s.(flushedTo := 9);
    assert offs[..0] == [] && AllCalledOff(t, []) == t;
    var off := AllCalledOff(t, offs);
    assert off == CalledOff(t, offs[0]);
    assert t.rising[..0] + t.rising[1..] == [];
    assert s.cooldowns[id := 7] == map[id := 7];
    assert off == t.(cooldowns := map[id := 7], rising := []);
    NothingDue(off, deeds, |off.queue|);
    NothingLeaves(off.queue, 7);
  }

  /** The second click's order is on its way when the first unit is called off. */
  lemma SecondWaits(id: Id)
    ensures var t := After(Start(), DoublingRun(id)[..10]);
            t == State(8, 9, [Queued(Order(id, true, 6, 6), Some(8))], [Sent(id, 6, 6)], map[id := 7], [])
  {
    hide Stepped, After;
    var run, order := DoublingRun(id), Order(id, true, 6, 6);
    CooledDown(id);
    var e := State(6, 7, [], [Sent(id, 0, 0)], map[id := 6], [Rising(id, 6)]);
    var f := e.(queue := [Queued(order, None)], sent := [Sent(id, 6, 6)]);
    RunNext(id, 7);
    assert After(Start(), run[..8]) == f by {
      assert e.sent[..0] == [] && Retained([], 6) == [] && Retained(e.sent, 6) == [];
      ClickAlone(e, id);
    }
    var g := f.(tick := 7, flushedTo := 8, queue := [Queued(order, Some(8))]);
    RunNext(id, 8);
    assert After(Start(), run[..9]) == g by {
      TickGoesBy(f);
    }
    RunNext(id, 9);
    CallOffResets(g, id, order);
  }

  lemma {:induction false} CallOffDoubles(id: Id)
    ensures var t := After(Start(), DoublingRun(id));
            |t.queue| == 2 && t.queue[0].order.given && t.queue[1].order.given
            && t.queue[0].order.warper == t.queue[1].order.warper == id && !OneEach(t.queue)
  {
    hide Stepped, After;
    var run := DoublingRun(id);
    SecondWaits(id);
    var h := State(8, 9, [Queued(Order(id, true, 6, 6), Some(8))], [Sent(id, 6, 6)], map[id := 7], []);
    RunNext(id, 10);
    ClickAlone(h, id);
    assert run[..11] == run;
    var t := After(Start(), run);
    assert t.queue == h.queue + [Queued(Order(id, true, 8, 7), None)];
    assert t.queue[0].order.warper == t.queue[1].order.warper;
  }
}
