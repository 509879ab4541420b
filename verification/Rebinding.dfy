/**
 The host lobby's listener: reopening it once the edited port settles, frame
 by frame, and what holds over any run of frames of one lobby visit.
 */
module Rebinding {
  import opened Wrappers

  const CONNECT_RETRY_FRAMES: nat := 60

  type Port = nat

  /** One frame in the host's lobby: the port the field asks for, none while it
      does not parse, and whether opening a listener would succeed now. */
  datatype Frame = Frame(desired: Option<Port>, opens: bool)

  /** The system's two locals and the port the listener is bound on. */
  datatype State = State(last: Option<Port>, cooldown: nat, bound: Option<Port>)

  /** What one frame leaves, and the port it reopened on, if it did. */
  function Next(s: State, f: Frame): (State, Option<Port>) {
    if f.desired.None? then (s, None)
    else if s.bound == f.desired then (s.(last := f.desired), None)
    else if s.last != f.desired then (s.(last := f.desired, cooldown := CONNECT_RETRY_FRAMES), None)
    else if s.cooldown > 0 then (s.(cooldown := s.cooldown - 1), None)
    else (State(s.last, CONNECT_RETRY_FRAMES, if f.opens then f.desired else None), f.desired)
  }

  class Listener {
    var last: Option<Port>
    var cooldown: nat
    var bound: Option<Port>

    function Now(): State
      reads this
    {
      State(last, cooldown, bound)
    }

    /** A lobby visit begun with fresh locals, whatever is bound. */
    constructor (bound: Option<Port>)
      ensures Now() == Fresh(bound)
    {
      this.last, this.cooldown, this.bound := None, 0, bound;
    }

    method HostRebind(frame: Frame) returns (tried: Option<Port>)
      modifies this
      ensures (Now(), tried) == Next(old(Now()), frame)
      ensures tried.Some? ==> tried == frame.desired != old(bound) && bound == if frame.opens then tried else None
      ensures tried.None? ==> bound == old(bound)
      ensures if frame.desired.None? then Now() == old(Now()) else last == frame.desired
    {
      tried := None;
      if frame.desired.None? {
        return;
      }
      if bound == frame.desired {
        last := frame.desired;
        return;
      }
      if last != frame.desired {
        last := frame.desired;
        cooldown := CONNECT_RETRY_FRAMES;
        return;
      }
      if cooldown > 0 {
        cooldown := cooldown - 1;
        return;
      }
      cooldown := CONNECT_RETRY_FRAMES;
      bound := None;
      if frame.opens {
        bound := frame.desired;
      }
      tried := frame.desired;
    }
  }

  // ─── Over a whole visit ───────────────────────────────────────────────────

  function Fresh(bound: Option<Port>): State {
    State(None, 0, bound)
  }

  /** The state before the `n`-th frame. */
  function Before(bound: Option<Port>, frames: seq<Frame>, n: nat): State
    requires n <= |frames|
  {
    if n == 0 then Fresh(bound) else Next(Before(bound, frames, n - 1), frames[n - 1]).0
  }

  /** The port the `n`-th frame reopened on, if it did. */
  function Tried(bound: Option<Port>, frames: seq<Frame>, n: nat): Option<Port>
    requires n < |frames|
  {
    Next(Before(bound, frames, n), frames[n]).1
  }

  // ─── What a try leaves ────────────────────────────────────────────────────

  /** A try leaves its port bound exactly when the listener opens, and none otherwise;
      a frame that tries nothing leaves the listener as it was. */
  lemma TryLeaves(bound: Option<Port>, frames: seq<Frame>, n: nat)
    requires n < |frames|
    ensures var tried, after := Tried(bound, frames, n), Before(bound, frames, n + 1).bound;
            && (forall p :: tried == Some(p) ==> frames[n].desired == Some(p) && after == if frames[n].opens then Some(p) else None)
            && (tried == None ==> after == Before(bound, frames, n).bound)
  {
  }

  ghost predicate NoTries(bound: Option<Port>, frames: seq<Frame>, lo: nat, hi: nat)
    requires hi <= |frames|
  {
    forall i: nat | lo <= i < hi :: Tried(bound, frames, i) == None
  }

  /** The listener stands as the last try left it, and as it was found before any. */
  lemma {:induction false} BoundByLastTry(bound: Option<Port>, frames: seq<Frame>, n: nat)
    requires n <= |frames|
    ensures NoTries(bound, frames, 0, n) ==> Before(bound, frames, n).bound == bound
    ensures forall k: nat, p | k < n && NoTries(bound, frames, k + 1, n) && Tried(bound, frames, k) == Some(p) ::
              Before(bound, frames, n).bound == if frames[k].opens then Some(p) else None
  {
    hide Tried, Before;
    if n == 0 {
      NothingYet(bound, frames);
    } else {
      BoundByLastTry(bound, frames, n - 1);
      TryLeaves(bound, frames, n - 1);
    }
  }

  lemma NothingYet(bound: Option<Port>, frames: seq<Frame>)
    ensures Before(bound, frames, 0).bound == bound
  {
  }

  /** While the frames ask for the port that is bound, or for nothing that parses,
      nothing is tried and it stays bound. */
  lemma {:induction false} BoundPortRests(bound: Option<Port>, frames: seq<Frame>, n: nat, m: nat, p: Port)
    requires n <= m <= |frames| && Before(bound, frames, n).bound == Some(p)
    requires forall i | n <= i < m :: frames[i].desired == None || frames[i].desired == Some(p)
    ensures NoTries(bound, frames, n, m) && Before(bound, frames, m).bound == Some(p)
  {
    if n < m {
      BoundPortRests(bound, frames, n, m - 1, p);
    }
  }

  /** A port whose listener opened is never tried again while the frames ask for it. */
  lemma {:induction false} OpenedPortRests(bound: Option<Port>, frames: seq<Frame>, n: nat, m: nat, p: Port)
    requires n < m <= |frames| && Tried(bound, frames, n) == Some(p) && frames[n].opens
    requires forall i | n < i < m :: frames[i].desired == None || frames[i].desired == Some(p)
    ensures NoTries(bound, frames, n + 1, m) && Before(bound, frames, m).bound == Some(p)
  {
    hide Tried, Before;
    TryLeaves(bound, frames, n);
    BoundPortRests(bound, frames, n + 1, m, p);
  }

  // ─── When a port is tried ─────────────────────────────────────────────────

  /** How many frames of `from..to` hold a port that parses. */
  function Valid(frames: seq<Frame>, from: nat, to: nat): (n: nat)
    requires from <= to <= |frames|
    ensures n <= to - from
  {
    if from == to then 0
    else Valid(frames, from, to - 1) + (if frames[to - 1].desired.Some? then 1 else 0)
  }

  /** Frame `start` adopted or tried `p`, and every valid frame since asked for it again. */
  ghost predicate SettledSince(bound: Option<Port>, frames: seq<Frame>, start: nat, n: nat, p: Port)
    requires start < n <= |frames|
  {
    && frames[start].desired == Some(p)
    && (Tried(bound, frames, start) == Some(p) || Before(bound, frames, start).last != Some(p))
    && forall i | start < i < n ::
         Tried(bound, frames, i) == None && (frames[i].desired == None || frames[i].desired == Some(p))
  }

  lemma SettledStarts(bound: Option<Port>, frames: seq<Frame>, n: nat, p: Port)
    requires n < |frames| && frames[n].desired == Some(p)
    requires Tried(bound, frames, n) == Some(p) || Before(bound, frames, n).last != Some(p)
    ensures SettledSince(bound, frames, n, n + 1, p)
  {
  }

  lemma SettledStays(bound: Option<Port>, frames: seq<Frame>, start: nat, n: nat, p: Port)
    requires start < n < |frames| && SettledSince(bound, frames, start, n, p)
    requires Tried(bound, frames, n) == None && (frames[n].desired == None || frames[n].desired == Some(p))
    ensures SettledSince(bound, frames, start, n + 1, p)
  {
    hide Tried, Before;
  }

  /** The wait a state stands in: what its cooldown has counted since when. */
  lemma {:induction false} WaitCounts(bound: Option<Port>, frames: seq<Frame>, n: nat) returns (start: nat)
    requires n <= |frames|
    ensures var s := Before(bound, frames, n);
            && s.cooldown <= CONNECT_RETRY_FRAMES
            && (s.last.Some? && s.bound != s.last ==>
                  && start < n && SettledSince(bound, frames, start, n, s.last.value)
                  && Valid(frames, start + 1, n) == CONNECT_RETRY_FRAMES - s.cooldown)
  {
    hide SettledSince;
    start := 0;
    if n > 0 {
      start := WaitCounts(bound, frames, n - 1);
      var before, after := Before(bound, frames, n - 1), Before(bound, frames, n);
      if after.last.Some? && after.bound != after.last {
        if before.last != after.last || Tried(bound, frames, n - 1).Some? {
          start := n - 1;
          SettledStarts(bound, frames, n - 1, after.last.value);
        } else {
          SettledStays(bound, frames, start, n - 1, after.last.value);
        }
      }
    }
  }

  /** A reopening waits out sixty valid frames, all asking for its port, since
      the port was adopted or last tried. */
  lemma {:induction false} ReopensOnlySettled(bound: Option<Port>, frames: seq<Frame>, n: nat, p: Port) returns (start: nat)
    requires n < |frames| && Tried(bound, frames, n) == Some(p)
    ensures start < n && SettledSince(bound, frames, start, n, p)
    ensures Valid(frames, start + 1, n) == CONNECT_RETRY_FRAMES
  {
    start := WaitCounts(bound, frames, n);
  }

  /** Two reopenings are at least sixty-one frames apart. */
  lemma {:induction false} ReopeningsApart(bound: Option<Port>, frames: seq<Frame>, i: nat, j: nat)
    requires i < j < |frames|
    requires Tried(bound, frames, i).Some? && Tried(bound, frames, j).Some?
    ensures j - i >= CONNECT_RETRY_FRAMES + 1
  {
    var start := ReopensOnlySettled(bound, frames, j, Tried(bound, frames, j).value);
    assert i <= start;
  }

  /** Frames that do not parse neither count nor restart the wait. */
  lemma {:induction false} InvalidFramesAreIdle(bound: Option<Port>, frames: seq<Frame>, n: nat, m: nat)
    requires n <= m <= |frames|
    requires forall i | n <= i < m :: frames[i].desired == None
    ensures Before(bound, frames, m) == Before(bound, frames, n)
  {
    if n < m {
      InvalidFramesAreIdle(bound, frames, n, m - 1);
    }
  }

  /** How many frames a port asked for steadily still has to wait, at most. */
  function Patience(s: State, p: Port): nat {
    if s.last == Some(p) then s.cooldown else CONNECT_RETRY_FRAMES + 1
  }

  lemma {:induction false} ValidFirst(frames: seq<Frame>, lo: nat, hi: nat)
    requires lo < hi <= |frames|
    ensures Valid(frames, lo, hi) == (if frames[lo].desired.Some? then 1 else 0) + Valid(frames, lo + 1, hi)
    decreases hi
  {
    if lo + 1 < hi {
      ValidFirst(frames, lo, hi - 1);
    }
  }

  /** A valid port not bound is tried by the sixty-second valid frame that asks for
      it, whatever frames that do not parse lie in between. */
  lemma {:induction false} SteadyPortIsTried(bound: Option<Port>, frames: seq<Frame>, n: nat, m: nat, p: Port) returns (at: nat)
    requires n <= m <= |frames| && Valid(frames, n, m) >= CONNECT_RETRY_FRAMES + 2
    requires Before(bound, frames, n).bound != Some(p)
    requires forall i | n <= i < m :: frames[i].desired == None || frames[i].desired == Some(p)
    ensures n <= at < m && Tried(bound, frames, at) == Some(p)
  {
    var start := WaitCounts(bound, frames, n);
    at := n;
    ValidFirst(frames, n, m);
    while Tried(bound, frames, at) != Some(p)
      invariant n <= at < m
      invariant Before(bound, frames, at).bound != Some(p)
      invariant Patience(Before(bound, frames, at), p) < Valid(frames, at, m)
      decreases m - at
    {
      ValidFirst(frames, at, m);
      at := at + 1;
    }
  }
}
