/**
 Remembered buildings: the store of what a side last saw of its rivals'
 buildings, and what it holds after any history of frames.
 */
module Memory {
  import opened Wrappers
  import opened Fog

  type Id = nat
  type Player = nat

  /** What is kept of a building: where it stood and what it looked like there. */
  datatype Sprite = Sprite(x: nat, y: nat, width: nat, height: nat, form: string)

  datatype Building = Building(id: Id, owner: Option<Player>, tagged: bool, seen: bool, sprite: Sprite)

  /** One frame as the store reads it. `fog` is the viewed side's knowledge. */
  datatype Frame = Frame(
    viewed: Option<Player>,
    allied: (Player, Player) -> bool,
    fog: (nat, nat) -> CellVisibility,
    buildings: seq<Building>)
  {
    /** The watched side's knowledge of a cell: everything for the whole-map view. */
    function Perspective(x: nat, y: nat): CellVisibility {
      if viewed.None? then Visible else fog(x, y)
    }

    /** Whether the viewer counts the building as friendly, as a viewer of everything counts all. */
    predicate OwnSide(b: Building) {
      viewed.None? || (b.owner.Some? && allied(viewed.value, b.owner.value))
    }

    /** Whether a building leaves a snapshot this frame. */
    predicate Snapshots(b: Building) {
      !OwnSide(b) && b.tagged && b.seen
    }
  }

  type Store = map<Id, Sprite>

  /** The snapshot the frame's first `n` buildings leave of `id`, the last one standing. */
  function SightingAmong(f: Frame, id: Id, n: nat): Option<Sprite>
    requires n <= |f.buildings|
  {
    if n == 0 then None
    else if f.buildings[n - 1].id == id && f.Snapshots(f.buildings[n - 1])
    then Some(f.buildings[n - 1].sprite)
    else SightingAmong(f, id, n - 1)
  }

  function Sighting(f: Frame, id: Id): Option<Sprite> {
    SightingAmong(f, id, |f.buildings|)
  }

  /** Whether a rival's building, of a kind that is remembered, is seen in a frame. */
  predicate RivalSeen(f: Frame, b: Building) {
    && f.viewed.Some? && b.tagged && b.seen
    && (b.owner.None? || !f.allied(f.viewed.value, b.owner.value))
  }

  /** What a frame leaves of a building is its last row that shows it seen as a rival's. */
  lemma {:induction false} SightingIsLast(f: Frame, id: Id, n: nat)
    requires n <= |f.buildings|
    ensures SightingAmong(f, id, n).None? <==> forall i | 0 <= i < n && f.buildings[i].id == id :: !RivalSeen(f, f.buildings[i])
    ensures forall i | 0 <= i < n && f.buildings[i].id == id && RivalSeen(f, f.buildings[i])
                       && (forall j | i < j < n && f.buildings[j].id == id :: !RivalSeen(f, f.buildings[j])) ::
              SightingAmong(f, id, n) == Some(f.buildings[i].sprite)
  {
    if n > 0 {
      SightingIsLast(f, id, n - 1);
    }
  }

  lemma {:induction false} NothingSighted(f: Frame, id: Id, n: nat)
    requires n <= |f.buildings| && f.viewed.None?
    ensures SightingAmong(f, id, n).None?
  {
    SightingIsLast(f, id, n);
  }

  /** Whether a remembered building outlives the frame. */
  predicate Keeps(f: Frame, id: Id, sprite: Sprite) {
    match f.Perspective(sprite.x, sprite.y)
    case Visible => Sighting(f, id).Some?
    case Explored => true
    case Unexplored => false
  }

  class Ghosts {
    var store: Store

    constructor ()
      ensures store == map[]
    {
      store := map[];
    }

    /** Snapshots what is seen and purges what turned out gone. */
    method DrawGhosts(f: Frame)
      modifies this
      ensures forall id :: id in store <==>
                var sprite := Latest(f, old(store), id);
                sprite.Some? && Keeps(f, id, sprite.value)
      ensures forall id | id in store :: Some(store[id]) == Latest(f, old(store), id)
      ensures f.viewed.None? ==> store == map[]
    {
      var seen: set<Id> := {};
      for n := 0 to |f.buildings|
        invariant forall id :: id in seen <==> SightingAmong(f, id, n).Some?
        invariant forall id :: id in store <==> SightingAmong(f, id, n).Some? || id in old(store)
        invariant forall id | id in store ::
            store[id] == if SightingAmong(f, id, n).Some? then SightingAmong(f, id, n).value else old(store)[id]
      {
        var b := f.buildings[n];
        if !f.OwnSide(b) && b.tagged {
          if b.seen {
            seen := seen + {b.id};
            store := store[b.id := b.sprite];
          }
        }
      }
      assert forall id | f.viewed.None? :: Sighting(f, id).None? by {
        if f.viewed.None? {
          forall id {
            NothingSighted(f, id, |f.buildings|);
          }
        }
      }
      store := map id | id in store
                        && (match f.Perspective(store[id].x, store[id].y)
                            case Visible => id in seen
                            case Explored => true
                            case Unexplored => false)
               :: store[id];
    }

    /** A new game forgets everything. */
    method Reset()
      modifies this
      ensures store == map[]
    {
      store := map[];
    }

    /** The store after a whole history of frames since a reset. */
    method Watch(frames: seq<Frame>)
      requires store == map[]
      modifies this
      ensures forall id :: Remembers(frames, id, store)
    {
      assert frames[..|frames|] == frames;
      for n := 0 to |frames|
        invariant forall id :: Remembers(frames[..n], id, store)
      {
        ghost var before, now := store, frames[..n + 1];
        DrawGhosts(frames[n]);
        assert frames[..n] + [frames[n]] == now;
        forall id
          ensures Remembers(now, id, store)
        {
          RemembersNext(frames[..n], frames[n], id, before, store);
        }
      }
    }
  }

  /** What the store holds of `id` once the frame's snapshots are taken. */
  function Latest(f: Frame, store: Store, id: Id): Option<Sprite> {
    if Sighting(f, id).Some? then Sighting(f, id)
    else if id in store then Some(store[id])
    else None
  }

  /**
   Frame `k` is what is remembered of `id`: it was seen then, its origin cell
   was not unexplored then, and in every frame since it was unseen and that
   cell explored but out of sight.
   */
  ghost predicate RememberedFrom(frames: seq<Frame>, id: Id, k: int) {
    && 0 <= k < |frames|
    && Sighting(frames[k], id).Some?
    && var sprite := Sighting(frames[k], id).value;
    && frames[k].Perspective(sprite.x, sprite.y) != Unexplored
    && forall j | k < j < |frames| ::
         Sighting(frames[j], id).None? && frames[j].Perspective(sprite.x, sprite.y) == Explored
  }

  /** One frame more: what is seen is remembered from it, and what is not is
      remembered from where it was as long as its cell stays out of sight. */
  lemma {:induction false} MemoryNext(frames: seq<Frame>, f: Frame, id: Id)
    ensures forall k :: RememberedFrom(frames + [f], id, k) <==>
              if k == |frames| then Sighting(f, id).Some? && Keeps(f, id, Sighting(f, id).value)
              else RememberedFrom(frames, id, k) && Sighting(f, id).None? && Keeps(f, id, Sighting(frames[k], id).value)
  {
    var all := frames + [f];
    assert forall k | 0 <= k < |frames| :: all[k] == frames[k];
    assert all[|frames|] == f;
  }

  /** The store holds `id` exactly when some frame is what is remembered of it,
      and as it was seen in that frame. */
  ghost predicate Remembers(frames: seq<Frame>, id: Id, store: Store) {
    && (id in store <==> exists k :: RememberedFrom(frames, id, k))
    && forall k | RememberedFrom(frames, id, k) :: id in store && Some(store[id]) == Sighting(frames[k], id)
  }

  lemma RemembersNext(frames: seq<Frame>, f: Frame, id: Id, before: Store, after: Store)
    requires Remembers(frames, id, before)
    requires var sprite := Latest(f, before, id); id in after <==> sprite.Some? && Keeps(f, id, sprite.value)
    requires id in after ==> Some(after[id]) == Latest(f, before, id)
    ensures Remembers(frames + [f], id, after)
  {
    MemoryNext(frames, f, id);
    assert forall k | 0 <= k < |frames| :: (frames + [f])[k] == frames[k];
    hide RememberedFrom, Keeps, Sighting;
    if Sighting(f, id).Some? {
      assert RememberedFrom(frames + [f], id, |frames|) <==> id in after;
    } else if id in after {
      var k :| RememberedFrom(frames, id, k);
      assert RememberedFrom(frames + [f], id, k);
    }
  }

  /** Only one frame is ever what is remembered. */
  lemma RememberedFromOneFrame(frames: seq<Frame>, id: Id, k: int, l: int)
    requires RememberedFrom(frames, id, k) && RememberedFrom(frames, id, l)
    ensures k == l
  {
  }
}
