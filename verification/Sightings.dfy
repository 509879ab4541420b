/**
 The sighting stamps: what the watched perspective makes of every drawn
 entity, judged once per change of tick, perspective or reveal.
 */
module Sightings {
  import opened Wrappers

  type Entity = nat
  type Player = nat

  datatype Sighting = Unseen | Glimpsed | Seen

  /** What the stamps were last judged from. */
  datatype Key = Key(tick: nat, viewed: Option<Player>, revealed: bool)

  datatype Judge = Everything | Seat(player: Player) | NoSeat

  /** The engine's answers at a tick: which players hold a seat that declares
      senses, and what such a seat makes of an entity. */
  datatype Rules = Rules(seated: (nat, Player) -> bool, sighting: (nat, Player, Entity) -> Sighting)

  function SightingJudge(rules: Rules, key: Key): Judge {
    if key.revealed || key.viewed.None? then Everything
    else if rules.seated(key.tick, key.viewed.value) then Seat(key.viewed.value)
    else NoSeat
  }

  function Judged(rules: Rules, key: Key, e: Entity): Sighting {
    match SightingJudge(rules, key)
    case Everything => Seen
    case NoSeat => Unseen
    case Seat(player) => rules.sighting(key.tick, player, e)
  }

  /** A revealed map and a view of everything see all; a seat with senses sees what they
      make out; any other view sees nothing. */
  lemma JudgedExactly(rules: Rules, key: Key, e: Entity)
    ensures key.revealed || key.viewed == None ==> Judged(rules, key, e) == Seen
    ensures forall p :: !key.revealed && key.viewed == Some(p) ==>
              Judged(rules, key, e) == if rules.seated(key.tick, p) then rules.sighting(key.tick, p, e) else Unseen
  {
  }

  type Stamps = map<Entity, Sighting>

  class Sighter {
    const rules: Rules
    var last: Option<Key>
    /** The entities with render components. */
    var drawn: set<Entity>
    /** The stamps; stripping a sprite leaves its stamp in place. */
    var stamps: Stamps

    constructor (rules: Rules)
      ensures this.rules == rules && last == None && drawn == {} && stamps == map[]
    {
      this.rules, last, drawn, stamps := rules, None, {}, map[];
    }

    /** Whether every drawn entity's stamp is what judging it now would say. */
    ghost predicate Current(key: Key)
      reads this
    {
      forall e | e in drawn :: e in stamps && stamps[e] == Judged(rules, key, e)
    }

    method RefreshChangedSprites(changed: set<Entity>)
      modifies this`drawn
      ensures drawn == old(drawn) - changed
    {
      drawn := drawn - changed;
    }

    method AttachSprites(located: set<Entity>)
      modifies this`drawn
      ensures drawn == old(drawn) + located
    {
      drawn := drawn + located;
    }

    method RefreshSightings(key: Key)
      modifies this`last, this`stamps
      ensures last == Some(key)
      ensures stamps.Keys == old(stamps.Keys) + drawn
      ensures forall e | e in stamps ::
                stamps[e] == if e in drawn && !(old(last) == Some(key) && e in old(stamps))
                             then Judged(rules, key, e) else old(stamps)[e]
    {
      var still := last == Some(key);
      last := Some(key);
      var todo := drawn;
      while todo != {}
        invariant todo <= drawn && last == Some(key)
        invariant stamps.Keys == old(stamps.Keys) + (drawn - todo)
        invariant forall e | e in stamps ::
            stamps[e] == if e in drawn - todo && !(still && e in old(stamps))
                         then Judged(rules, key, e) else old(stamps)[e]
      {
        var e :| e in todo;
        todo := todo - {e};
        if !(still && e in stamps) {
          var sighting := Judged(rules, key, e);
          if e !in stamps || stamps[e] != sighting {
            stamps := stamps[e := sighting];
          }
        }
      }
    }

    /**
     One frame of the render chain: strip what changed, attach what stands on
     the map, stamp. The stamps are current after it exactly when the key moved
     or nothing came back wearing a stamp that differs from its verdict now.
     */
    method DrawFrame(key: Key, changed: set<Entity>, located: set<Entity>)
      modifies this
      ensures last == Some(key) && drawn == old(drawn) - changed + located
      ensures stamps.Keys == old(stamps.Keys) + drawn
      ensures Current(key) <==>
                (old(last) == Some(key) ==>
                   forall e | e in drawn && e in old(stamps) :: old(stamps)[e] == Judged(rules, key, e))
    {
      RefreshChangedSprites(changed);
      AttachSprites(located);
      RefreshSightings(key);
    }

    /**
     Any run of frames keeps the stamps current after every pass, as long as
     what stands on the map changes only when the key does.
     */
    method Run(keys: seq<Key>, changed: seq<set<Entity>>, located: seq<set<Entity>>)
      requires last == None
      requires |keys| == |changed| == |located|
      requires forall i | 0 < i < |keys| :: keys[i] == keys[i - 1] ==> located[i] == located[i - 1]
      modifies this
      ensures |keys| > 0 ==> Current(keys[|keys| - 1])
      ensures |keys| > 0 && (keys[|keys| - 1].revealed || keys[|keys| - 1].viewed == None) ==>
                forall e | e in drawn :: e in stamps && stamps[e] == Seen
    {
      for i := 0 to |keys|
        invariant i == 0 ==> last == None
        invariant i > 0 ==> last == Some(keys[i - 1]) && Current(keys[i - 1]) && located[i - 1] <= drawn
      {
        DrawFrame(keys[i], changed[i], located[i]);
      }
    }

    /**
     A sprite stripped while its entity is off the map, through a pass under a
     new key, and back on the map under that same key, keeps its old stamp.
     */
    method StaleAfterAway(e: Entity, before: Key, after: Key)
      requires last == None && drawn == {} && stamps == map[]
      requires before != after && Judged(rules, before, e) != Judged(rules, after, e)
      modifies this
      ensures e in drawn && last == Some(after) && !Current(after)
    {
      RefreshChangedSprites({});
      AttachSprites({e});
      RefreshSightings(before);
      RefreshChangedSprites({e});
      RefreshSightings(after);
      AttachSprites({e});
      RefreshSightings(after);
    }
  }
}
