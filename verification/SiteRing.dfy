/**
 The ring of candidate sites a brain tries in turn: whose turn comes next, and
 that over a lap every valid site has exactly one.
 */
module SiteRing {
  import opened Wrappers

  /** The place after `i` on a ring of `n`. */
  function After(i: nat, n: nat): nat
    requires i < n
  {
    if i + 1 == n then 0 else i + 1
  }

  /** How many places `i` lies after `p` on a ring of `n`. */
  function Ahead(p: nat, i: nat, n: nat): (d: nat)
    requires p < n && i < n
    ensures d < n
  {
    if p <= i then i - p else i + n - p
  }

  /** The first valid place among `tries` from `p` on. */
  function NextValid(valid: nat -> bool, n: nat, p: nat, tries: nat): (i: Option<nat>)
    requires p < n
    ensures i.Some? ==> i.value < n && valid(i.value)
    decreases tries
  {
    if tries == 0 then None
    else if valid(p) then Some(p)
    else NextValid(valid, n, After(p, n), tries - 1)
  }

  /** A full lap finds the nearest valid place ahead, or there is none. */
  lemma {:induction false} NextValidIsNearest(valid: nat -> bool, n: nat, p: nat, tries: nat)
    requires p < n && tries <= n
    ensures var i := NextValid(valid, n, p, tries);
            && (i.None? ==> forall j | 0 <= j < n && valid(j) :: tries <= Ahead(p, j, n))
            && (i.Some? ==> Ahead(p, i.value, n) < tries
                            && forall j | 0 <= j < n && valid(j) :: Ahead(p, i.value, n) <= Ahead(p, j, n))
    decreases tries
  {
    if tries > 0 && !valid(p) {
      var q := After(p, n);
      NextValidIsNearest(valid, n, q, tries - 1);
      forall j | 0 <= j < n && valid(j)
        ensures Ahead(p, j, n) == Ahead(q, j, n) + 1
      {
      }
      var i := NextValid(valid, n, p, tries);
      if i.Some? {
        assert i.value != p;
      }
    }
  }

  function ValidPlaces(valid: nat -> bool, n: nat): (places: set<nat>)
    ensures forall j :: j in places <==> 0 <= j < n && valid(j)
  {
    set j: nat | j < n && valid(j)
  }

  /** The places `k` picks in a row take, each starting after the last. */
  function Picks(valid: nat -> bool, n: nat, p: nat, k: nat): (picks: seq<nat>)
    requires p < n && ValidPlaces(valid, n) != {}
    ensures |picks| == k
    decreases k
  {
    if k == 0 then []
    else
      var i := Pick(valid, n, p);
      [i] + Picks(valid, n, After(i, n), k - 1)
  }

  function Pick(valid: nat -> bool, n: nat, p: nat): (i: nat)
    requires p < n && ValidPlaces(valid, n) != {}
    ensures i in ValidPlaces(valid, n)
    ensures forall j | j in ValidPlaces(valid, n) :: Ahead(p, i, n) <= Ahead(p, j, n)
  {
    NextValidIsNearest(valid, n, p, n);
    assert NextValid(valid, n, p, n).Some? by {
      var j :| j in ValidPlaces(valid, n);
      assert Ahead(p, j, n) < n;
    }
    NextValid(valid, n, p, n).value
  }

  /** A lap finds the pick, when there is one to find. */
  lemma {:induction false} NextIsPick(valid: nat -> bool, n: nat, p: nat)
    requires p < n
    ensures NextValid(valid, n, p, n)
            == if ValidPlaces(valid, n) == {} then None else Some(Pick(valid, n, p))
  {
    NextValidIsNearest(valid, n, p, n);
    var i := NextValid(valid, n, p, n);
    assert i.Some? ==> i.value in ValidPlaces(valid, n);
    if ValidPlaces(valid, n) != {} {
      var j :| j in ValidPlaces(valid, n);
      assert Ahead(p, j, n) < n;
    }
  }

  /** The valid places not yet reached `q` places into a lap from `p`. */
  ghost function Left(valid: nat -> bool, n: nat, p: nat, q: nat): set<nat>
    requires p < n
  {
    set j | j in ValidPlaces(valid, n) && q <= Ahead(p, j, n)
  }

  lemma AheadSplits(p: nat, at: nat, j: nat, n: nat)
    requires p < n && at < n && j < n
    requires Ahead(p, at, n) <= Ahead(p, j, n)
    ensures Ahead(p, j, n) == Ahead(p, at, n) + Ahead(at, j, n)
  {
  }

  /** A pick takes the first of what is left of the lap and leaves the rest. */
  lemma PickTakesFirstLeft(valid: nat -> bool, n: nat, p: nat, at: nat)
    requires p < n && at < n
    requires Left(valid, n, p, Ahead(p, at, n)) != {}
    ensures ValidPlaces(valid, n) != {}
    ensures var q, i := Ahead(p, at, n), Pick(valid, n, at);
            && i in Left(valid, n, p, q)
            && Left(valid, n, p, Ahead(p, i, n) + 1) == Left(valid, n, p, q) - {i}
  {
    var q := Ahead(p, at, n);
    var some :| some in Left(valid, n, p, q);
    assert some in ValidPlaces(valid, n);
    var i := Pick(valid, n, at);
    AheadSplits(p, at, some, n);
    assert Ahead(at, i, n) <= Ahead(at, some, n);
    forall j | j in Left(valid, n, p, q)
      ensures Ahead(p, i, n) <= Ahead(p, j, n)
      ensures Ahead(p, i, n) == Ahead(p, j, n) ==> i == j
    {
      AheadSplits(p, at, j, n);
    }
  }

  /** Whether a list of places is a set of them, each once. */
  ghost predicate Lists(picks: seq<nat>, places: set<nat>) {
    && (forall i, j | 0 <= i < j < |picks| :: picks[i] != picks[j])
    && forall x :: x in picks <==> x in places
  }

  lemma ListsOneMore(first: nat, rest: seq<nat>, places: set<nat>)
    requires first in places && Lists(rest, places - {first})
    ensures Lists([first] + rest, places)
  {
    assert forall i | 0 <= i < |rest| :: rest[i] in rest;
  }

  /** A pick is the first of the picks, and one place fewer is left after it. */
  lemma PicksFirst(valid: nat -> bool, n: nat, at: nat, left: set<nat>)
    requires at < n && ValidPlaces(valid, n) != {} && Pick(valid, n, at) in left
    ensures var i := Pick(valid, n, at);
            && |left - {i}| == |left| - 1
            && Picks(valid, n, at, |left|) == [i] + Picks(valid, n, After(i, n), |left - {i}|)
  {
    hide Pick, ValidPlaces;
  }

  /** Picks from `at` on take exactly what is left of a lap from `p`, each once. */
  lemma {:induction false} LapTakesWhatIsLeft(valid: nat -> bool, n: nat, p: nat, q: nat, at: nat)
    requires p < n && at < n && q <= n && ValidPlaces(valid, n) != {}
    requires q < n ==> Ahead(p, at, n) == q
    ensures var left := Left(valid, n, p, q); Lists(Picks(valid, n, at, |left|), left)
    decreases n - q
  {
    hide Left, Pick, Picks, Ahead, ValidPlaces, Lists;
    var left := Left(valid, n, p, q);
    if left == {} {
      NoPicks(valid, n, at);
    } else {
      LeftWithin(valid, n, p, q);
      PickTakesFirstLeft(valid, n, p, at);
      var i := Pick(valid, n, at);
      AheadNext(p, i, n);
      LapTakesWhatIsLeft(valid, n, p, Ahead(p, i, n) + 1, After(i, n));
      PicksFirst(valid, n, at, left);
      ListsOneMore(i, Picks(valid, n, After(i, n), |left - {i}|), left);
    }
  }

  lemma NoPicks(valid: nat -> bool, n: nat, at: nat)
    requires at < n && ValidPlaces(valid, n) != {}
    ensures Lists(Picks(valid, n, at, 0), {})
  {
  }

  lemma LeftWithin(valid: nat -> bool, n: nat, p: nat, q: nat)
    requires p < n
    ensures q >= n ==> Left(valid, n, p, q) == {}
    ensures forall i | i in Left(valid, n, p, q) :: i < n && q <= Ahead(p, i, n) < n
  {
  }

  lemma AheadNext(p: nat, i: nat, n: nat)
    requires p < n && i < n
    ensures Ahead(p, i, n) + 1 < n ==> Ahead(p, After(i, n), n) == Ahead(p, i, n) + 1
  {
  }

  /** As many picks as there are valid places use each of them exactly once,
      wherever the ring stands. */
  lemma {:induction false} LapIsFair(valid: nat -> bool, n: nat, p: nat)
    requires p < n && ValidPlaces(valid, n) != {}
    ensures Lists(Picks(valid, n, p, |ValidPlaces(valid, n)|), ValidPlaces(valid, n))
  {
    assert Left(valid, n, p, 0) == ValidPlaces(valid, n);
    LapTakesWhatIsLeft(valid, n, p, 0, p);
  }
}
