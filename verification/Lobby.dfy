/**
 A local lobby: the seats its buttons rearrange, and the slots the started
 game is given.
 */
module Lobby {
  import opened Wrappers

  datatype SlotKind = Open | Human | Ai | Closed

  datatype Race = Humans | Orcs | Swarm | Conclave | Elves | Terrans | Undead

  datatype SlotView = SlotView(kind: SlotKind, race: Race, team: Option<nat>)

  datatype LocalRole = Player(slot: nat) | Observer

  datatype LobbyMode = Local | Host | Client

  /** A press of one of the local lobby's buttons. */
  datatype Press = Kind(slot: nat) | Team(slot: nat) | Claim(slot: nat) | Spectate

  /** A slot of the session the started game is given. */
  datatype PlayerSlot =
    | Occupied(id: nat, human: bool, race: Race, team: Option<nat>)
    | Free(id: nat)

  /** The team after `team`: none, then 1 up to the number of seats, then none again. */
  function NextTeam(team: Option<nat>, seats: nat): Option<nat> {
    match team
    case None => Some(1)
    case Some(current) => if current < seats then Some(current + 1) else None
  }

  /** How many slots are of a kind. */
  function Count(slots: seq<SlotView>, kind: SlotKind): nat {
    if slots == [] then 0
    else Count(slots[..|slots| - 1], kind) + (if slots[|slots| - 1].kind == kind then 1 else 0)
  }

  /** The first slot of a kind. */
  function Position(slots: seq<SlotView>, kind: SlotKind, from: nat := 0): (at: Option<nat>)
    requires from <= |slots|
    ensures at.None? ==> forall i | from <= i < |slots| :: slots[i].kind != kind
    ensures at.Some? ==> from <= at.value < |slots| && slots[at.value].kind == kind
                         && forall i | from <= i < at.value :: slots[i].kind != kind
    decreases |slots| - from
  {
    if from == |slots| then None
    else if slots[from].kind == kind then Some(from)
    else Position(slots, kind, from + 1)
  }

  function Or<T>(a: Option<T>, b: Option<T>): Option<T> {
    if a.Some? then a else b
  }

  function WithKind(slots: seq<SlotView>, slot: nat, kind: SlotKind): seq<SlotView>
    requires slot < |slots|
  {
    slots[slot := slots[slot].(kind := kind)]
  }

  lemma {:induction false} CountAfterChange(slots: seq<SlotView>, slot: nat, view: SlotView, kind: SlotKind)
    requires slot < |slots|
    ensures Count(slots[slot := view], kind)
            == Count(slots, kind) - (if slots[slot].kind == kind then 1 else 0) + (if view.kind == kind then 1 else 0)
  {
    var n := |slots| - 1;
    if slot == n {
      assert slots[slot := view][..n] == slots[..n];
    } else {
      CountAfterChange(slots[..n], slot, view, kind);
      assert slots[slot := view][..n] == slots[..n][slot := view];
    }
  }

  /** The lobby's seats: what every press keeps true of a local lobby. */
  ghost predicate Seated(slots: seq<SlotView>, seat: LocalRole, observers: nat) {
    && |slots| > 0
    && (seat.Player? ==> seat.slot < |slots|)
    && (forall i | 0 <= i < |slots| :: slots[i].kind != Open)
    && (forall i | 0 <= i < |slots| :: slots[i].kind == Human <==> seat == Player(i))
    && observers == (if seat.Observer? then 1 else 0)
  }

  /** A seat the local human takes, as the slots and the watchers stand after. */
  function Claimed(slots: seq<SlotView>, from: LocalRole, to: LocalRole): seq<SlotView>
    requires from.Player? ==> from.slot < |slots|
    requires to.Player? ==> to.slot < |slots|
  {
    if from == to then slots
    else
      var left := if from.Player? then WithKind(slots, from.slot, Ai) else slots;
      if to.Player? then WithKind(left, to.slot, Human) else left
  }

  /** The seat a watching human returns to: an open one first, an AI's next, a closed one last. */
  function Target(slots: seq<SlotView>): Option<nat> {
    Or(Position(slots, Open), Or(Position(slots, Ai), Position(slots, Closed)))
  }

  /** A watching human returns to the first open seat, with none open the first AI's, and
      with none of those the first closed. */
  lemma TargetIsFirst(slots: seq<SlotView>, t: nat)
    requires Target(slots) == Some(t)
    ensures t < |slots| && slots[t].kind != Human && forall i | 0 <= i < t :: slots[i].kind != slots[t].kind
    ensures slots[t].kind != Open ==> forall i | 0 <= i < |slots| :: slots[i].kind != Open
    ensures slots[t].kind == Closed ==> forall i | 0 <= i < |slots| :: slots[i].kind != Ai
  {
  }

  /** The team after so many presses. */
  function TeamAfter(team: Option<nat>, seats: nat, presses: nat): Option<nat> {
    if presses == 0 then team else NextTeam(TeamAfter(team, seats, presses - 1), seats)
  }

  /** Pressing goes through the teams of the map's seats in order, then to none, and from
      wherever it stands on in the same way. */
  lemma {:induction false} TeamsGoRound(seats: nat, presses: nat)
    requires 0 < seats && 0 < presses <= seats
    ensures TeamAfter(None, seats, presses) == Some(presses)
    ensures TeamAfter(None, seats, seats + 1) == None
    decreases seats, presses
  {
    TeamsInOrder(seats, presses);
    TeamsInOrder(seats, seats);
  }

  lemma {:induction false} TeamsInOrder(seats: nat, presses: nat)
    requires 0 < presses <= seats
    ensures TeamAfter(None, seats, presses) == Some(presses)
  {
    if presses > 1 {
      TeamsInOrder(seats, presses - 1);
    } else {
      assert TeamAfter(None, seats, 0) == None;
    }
  }

  lemma {:induction false} PressesAdd(team: Option<nat>, seats: nat, first: nat, more: nat)
    ensures TeamAfter(team, seats, first + more) == TeamAfter(TeamAfter(team, seats, first), seats, more)
  {
    if more > 0 {
      PressesAdd(team, seats, first, more - 1);
    }
  }

  class LobbyConfig {
    var slots: seq<SlotView>
    var observers: nat
    var localSeat: LocalRole

    ghost predicate Valid()
      reads this
    {
      Seated(slots, localSeat, observers)
    }

    /** The lobby a mode opens with, one row a seat of the map. */
    constructor ForMode(mode: LobbyMode, seats: nat)
      ensures |slots| == seats && observers == 0 && localSeat == Player(0)
      ensures forall i | 0 <= i < seats ::
                && slots[i].team == None && slots[i].race == (if i % 2 == 0 then Humans else Orcs)
                && slots[i].kind == (match mode
                                     case Local => if i == 0 then Human else Ai
                                     case Host => if i == 0 then Human else Open
                                     case Client => Open)
      ensures mode == Local && seats > 0 ==> Valid()
    {
      slots := seq(seats, i =>
        SlotView(
          match mode
          case Local => (if i == 0 then Human else Ai)
          case Host => (if i == 0 then Human else Open)
          case Client => Open,
          if i % 2 == 0 then Humans else Orcs,
          None));
      observers := 0;
      localSeat := Player(0);
    }

    /** A local press on a slot's kind: the human's is fixed, the others toggle. */
    method CycleKind(slot: nat)
      requires Valid() && slot < |slots|
      modifies this`slots
      ensures Valid()
      ensures localSeat == Player(slot) ==> slots == old(slots)
      ensures localSeat != Player(slot) ==>
                slots == WithKind(old(slots), slot, if old(slots)[slot].kind == Ai then Closed else Ai)
    {
      if localSeat == Player(slot) {
        return;
      }
      slots := WithKind(slots, slot, if slots[slot].kind == Ai then Closed else Ai);
    }

    method CycleTeam(slot: nat)
      requires Valid() && slot < |slots|
      modifies this`slots
      ensures Valid()
      ensures slots == old(slots)[slot := old(slots)[slot].(team := NextTeam(old(slots)[slot].team, |old(slots)|))]
    {
      slots := slots[slot := slots[slot].(team := NextTeam(slots[slot].team, |slots|))];
    }

    /** The human takes a seat; the player slot left behind becomes an AI's. */
    method ClaimLocal(seat: LocalRole)
      requires Valid() && (seat.Player? ==> seat.slot < |slots|)
      modifies this
      ensures Valid()
      ensures localSeat == seat
      ensures slots == Claimed(old(slots), old(localSeat), seat)
    {
      if localSeat == seat {
        return;
      }
      match localSeat {
        case Player(previous) => slots := WithKind(slots, previous, Ai);
        case Observer => observers := 0;
      }
      match seat {
        case Player(slot) => slots := WithKind(slots, slot, Human);
        case Observer => observers := 1;
      }
      localSeat := seat;
    }

    /** Out to watching, or back to a player slot. */
    method ToggleObserve()
      requires Valid()
      modifies this
      ensures Valid()
      ensures old(localSeat).Player? ==> localSeat == Observer
      ensures old(localSeat).Observer? ==> localSeat.Player? && Target(old(slots)) == Some(localSeat.slot)
      ensures slots == Claimed(old(slots), old(localSeat), localSeat)
    {
      var observing := localSeat == Observer;
      if observing {
        var target := Target(slots);
        if target.Some? {
          ClaimLocal(Player(target.value));
        }
      } else {
        ClaimLocal(Observer);
      }
    }

    /**
     One press of the local lobby. No row changes race, a team press moves its row's
     team alone, a kind press its row's kind alone, and a change of seat the kinds of
     the two seats alone: the one taken is the human's, the one left an AI's.
     */
    method Pressed(press: Press)
      requires Valid()
      requires press.Spectate? || press.slot < |slots|
      modifies this
      ensures Valid() && |slots| == |old(slots)|
      ensures forall i | 0 <= i < |slots| ::
                && slots[i].race == old(slots)[i].race
                && (press != Team(i) ==> slots[i].team == old(slots)[i].team)
                && (press == Team(i) ==> slots[i].team == NextTeam(old(slots)[i].team, |slots|))
      ensures press.Team? || press.Kind? ==> localSeat == old(localSeat)
      ensures press.Claim? ==> localSeat == Player(press.slot)
      ensures press.Spectate? ==> localSeat.Player? == old(localSeat).Observer?
      ensures forall i | 0 <= i < |slots| ::
                slots[i].kind == if localSeat == Player(i) then Human
                                 else if old(localSeat) == Player(i) then Ai
                                 else if press != Kind(i) then old(slots)[i].kind
                                 else if old(slots)[i].kind == Ai then Closed else Ai
    {
      match press
      case Kind(slot) => CycleKind(slot);
      case Team(slot) => CycleTeam(slot);
      case Claim(slot) => ClaimLocal(Player(slot));
      case Spectate => ToggleObserve();
    }

    /** Whatever is pressed and however often, the human sits where the lobby says. */
    method Run(presses: seq<Press>)
      requires Valid()
      requires forall i | 0 <= i < |presses| :: presses[i].Spectate? || presses[i].slot < |slots|
      modifies this
      ensures Valid() && |slots| == |old(slots)|
      ensures forall i | 0 <= i < |slots| :: slots[i].race == old(slots)[i].race
      ensures HumanSeats(PlayerSlots(slots)) == if localSeat.Player? then [localSeat.slot] else []
    {
      for i := 0 to |presses|
        invariant Valid() && |slots| == |old(slots)|
        invariant forall i | 0 <= i < |slots| :: slots[i].race == old(slots)[i].race
      {
        Pressed(presses[i]);
      }
      OneHumanSeated(slots, localSeat, observers);
    }

    /** Out to watching and back in: always possible, and only the human's seat moved. */
    method RoundTrip()
      requires Valid() && localSeat.Player?
      modifies this
      ensures Valid() && localSeat.Player?
      ensures slots == Returned(old(slots), old(localSeat).slot)
      ensures localSeat == Player(ReturnSeat(old(slots), old(localSeat).slot))
      ensures forall i | 0 <= i < |slots| :: slots[i].kind == Closed <==> old(slots)[i].kind == Closed
      ensures forall kind :: Count(slots, kind) == Count(old(slots), kind)
    {
      ghost var seat := localSeat.slot;
      ToggleObserve();
      ToggleObserve();
      ReturnKeepsLineup(old(slots), seat);
    }
  }

  // ─── Spectating and coming back ───────────────────────────────────────────

  /** The seat a round trip from `seat` ends in: the first AI's, the seat left being one. */
  function ReturnSeat(slots: seq<SlotView>, seat: nat): (to: nat)
    requires seat < |slots| && forall i | 0 <= i < |slots| :: slots[i].kind != Open
    ensures to <= seat
    ensures forall i | 0 <= i < to :: slots[i].kind != Ai
    ensures to < seat ==> slots[to].kind == Ai
  {
    var left := WithKind(slots, seat, Ai);
    assert left[seat].kind == Ai;
    var target := Position(left, Ai).value;
    assert forall i | 0 <= i < target :: left[i] == slots[i];
    assert Target(left) == Some(target);
    target
  }

  /** The slots after a round trip from `seat`. */
  function Returned(slots: seq<SlotView>, seat: nat): seq<SlotView>
    requires seat < |slots| && forall i | 0 <= i < |slots| :: slots[i].kind != Open
  {
    WithKind(WithKind(slots, seat, Ai), ReturnSeat(slots, seat), Human)
  }

  /** A round trip keeps the closed seats and how many there are of each kind. */
  lemma {:induction false} ReturnKeepsLineup(slots: seq<SlotView>, seat: nat)
    requires seat < |slots| && slots[seat].kind == Human
    requires forall i | 0 <= i < |slots| :: slots[i].kind != Open
    ensures forall i | 0 <= i < |slots| :: Returned(slots, seat)[i].kind == Closed <==> slots[i].kind == Closed
    ensures forall kind :: Count(Returned(slots, seat), kind) == Count(slots, kind)
  {
    var left := WithKind(slots, seat, Ai);
    var to := ReturnSeat(slots, seat);
    forall kind
      ensures Count(Returned(slots, seat), kind) == Count(slots, kind)
    {
      CountAfterChange(slots, seat, slots[seat].(kind := Ai), kind);
      CountAfterChange(left, to, left[to].(kind := Human), kind);
    }
  }

  /** A second round trip changes nothing the first did not. */
  lemma {:induction false} ReturningTwiceIsOnce(slots: seq<SlotView>, seat: nat)
    requires seat < |slots| && slots[seat].kind == Human
    requires forall i | 0 <= i < |slots| :: slots[i].kind != Open
    ensures var once, to := Returned(slots, seat), ReturnSeat(slots, seat);
            && (forall i | 0 <= i < |once| :: once[i].kind != Open)
            && ReturnSeat(once, to) == to
            && Returned(once, to) == once
  {
    var once, to := Returned(slots, seat), ReturnSeat(slots, seat);
    var again := ReturnSeat(once, to);
    assert forall i | 0 <= i < to :: once[i] == slots[i];
    assert WithKind(WithKind(once, to, Ai), to, Human) == once;
  }

  // ─── The started game's slots ─────────────────────────────────────────────

  /** What the started game makes of the lobby's rows. */
  function PlayerSlots(slots: seq<SlotView>): (seated: seq<PlayerSlot>)
    ensures |seated| == |slots|
    ensures forall i | 0 <= i < |slots| ::
              seated[i] == match slots[i].kind
                           case Human => Occupied(i, true, slots[i].race, slots[i].team)
                           case Ai => Occupied(i, false, slots[i].race, slots[i].team)
                           case Open => Free(i)
                           case Closed => Free(i)
  {
    seq(|slots|, i requires 0 <= i < |slots| =>
      match slots[i].kind
      case Human => Occupied(i, true, slots[i].race, slots[i].team)
      case Ai => Occupied(i, false, slots[i].race, slots[i].team)
      case Open => Free(i)
      case Closed => Free(i))
  }

  /** The slots a human is seated in. */
  function HumanSeats(slots: seq<PlayerSlot>): seq<nat> {
    if slots == [] then []
    else
      var rest, last := HumanSeats(slots[..|slots| - 1]), slots[|slots| - 1];
      if last.Occupied? && last.human then rest + [last.id] else rest
  }

  lemma {:induction false} HumansUpTo(slots: seq<SlotView>, seat: LocalRole, n: nat)
    requires n <= |slots|
    requires forall i | 0 <= i < |slots| :: slots[i].kind == Human <==> seat == Player(i)
    ensures HumanSeats(PlayerSlots(slots)[..n]) == if seat.Player? && seat.slot < n then [seat.slot] else []
  {
    if n > 0 {
      HumansUpTo(slots, seat, n - 1);
      assert PlayerSlots(slots)[..n][..n - 1] == PlayerSlots(slots)[..n - 1];
    }
  }

  /** A seated lobby starts a game with its one human where it sits, or none watching. */
  lemma {:induction false} OneHumanSeated(slots: seq<SlotView>, seat: LocalRole, observers: nat)
    requires Seated(slots, seat, observers)
    ensures HumanSeats(PlayerSlots(slots)) == if seat.Player? then [seat.slot] else []
  {
    HumansUpTo(slots, seat, |slots|);
    assert PlayerSlots(slots)[..|slots|] == PlayerSlots(slots);
  }
}
