/**
 Requirement trees, the evaluator the hints lean on, and the two printers of
 the command card's hints, with words as tokens: a leaf's own words are one.
 */
module Requirements {
  import opened Wrappers

  type Leaf = string

  datatype Requirement =
    | All(items: seq<Requirement>)
    | Any(items: seq<Requirement>)
    | Unless(item: Requirement)
    | Of(leaf: Leaf)

  /** Which leaves hold now. */
  type World = Leaf -> bool

  datatype Token = Word(leaf: Leaf) | And | Or | Not | Open | Close

  type Words = seq<Token>

  /** Whether one requirement is met. */
  predicate Holds(w: World, r: Requirement) {
    match r
    case All(items) => forall i | 0 <= i < |items| :: Holds(w, items[i])
    case Any(items) => exists i | 0 <= i < |items| :: Holds(w, items[i])
    case Unless(item) => !Holds(w, item)
    case Of(leaf) => w(leaf)
  }

  /** The parts one after another with a separator between neighbors. */
  function Joined(parts: seq<Words>, separator: Token): Words {
    if parts == [] then []
    else if |parts| == 1 then parts[0]
    else parts[0] + [separator] + Joined(parts[1..], separator)
  }

  // ─── The whole requirement in words ───────────────────────────────────────

  function RequirementWords(r: Requirement): Words
    decreases r, 0
  {
    match r
    case All(items) => Joined(EachInWords(items), And)
    case Any(items) => [Open] + Joined(EachInWords(items), Or) + [Close]
    case Unless(item) => [Not] + RequirementWords(item)
    case Of(leaf) => [Word(leaf)]
  }

  function EachInWords(items: seq<Requirement>): (parts: seq<Words>)
    ensures |parts| == |items|
    decreases items, 1
  {
    if items == [] then [] else [RequirementWords(items[0])] + EachInWords(items[1..])
  }

  // ─── The unmet part in words ──────────────────────────────────────────────

  function UnmetWords(w: World, r: Requirement): Option<Words>
    decreases r, 0
  {
    match r
    case All(items) =>
      var unmet := UnmetParts(w, items);
      if unmet == [] then None else Some(Joined(unmet, And))
    case Any(items) =>
      var unmet := UnmetAlternatives(w, items);
      if unmet.None? then None else Some([Open] + Joined(unmet.value, Or) + [Close])
    case Unless(item) =>
      if Holds(w, item) then Some([Not] + RequirementWords(item)) else None
    case Of(leaf) => if w(leaf) then None else Some([Word(leaf)])
  }

  /** The words of each unmet item. */
  function UnmetParts(w: World, items: seq<Requirement>): seq<Words>
    decreases items, 1
  {
    if items == [] then []
    else
      var first := UnmetWords(w, items[0]);
      (if first.Some? then [first.value] else []) + UnmetParts(w, items[1..])
  }

  /** The words of every item, or nothing as soon as one is met. */
  function UnmetAlternatives(w: World, items: seq<Requirement>): Option<seq<Words>>
    decreases items, 1
  {
    if items == [] then Some([])
    else
      var first := UnmetWords(w, items[0]);
      if first.None? then None
      else
        var rest := UnmetAlternatives(w, items[1..]);
        if rest.None? then None else Some([first.value] + rest.value)
  }

  /** The alternatives' loop: gathers the words of each, and stops at the first one met. */
  method AnyUnmetWords(w: World, items: seq<Requirement>) returns (words: Option<Words>)
    ensures words == UnmetWords(w, Any(items))
  {
    var unmet: seq<Words> := [];
    for i := 0 to |items|
      invariant unmet == UnmetParts(w, items[..i]) && |unmet| == i
    {
      var item := UnmetWords(w, items[i]);
      UnmetPartsNext(w, items, i);
      if item.None? {
        UnmetWordsAgree(w, items[i]);
        UnmetPartsAgree(w, items);
        return None;
      }
      unmet := unmet + [item.value];
    }
    assert items[..|items|] == items;
    AllUnmet(w, items);
    words := Some([Open] + Joined(unmet, Or) + [Close]);
  }

  lemma {:induction false} UnmetPartsNext(w: World, items: seq<Requirement>, i: nat)
    requires i < |items|
    ensures var next := UnmetWords(w, items[i]);
            UnmetParts(w, items[..i + 1]) == UnmetParts(w, items[..i]) + if next.Some? then [next.value] else []
    decreases i
  {
    if i > 0 {
      UnmetPartsNext(w, items[1..], i - 1);
      assert items[..i + 1][1..] == items[1..][..i] && items[..i][1..] == items[1..][..i - 1];
    }
  }

  /** With every alternative unmet, the words of each are the words of the unmet. */
  lemma {:induction false} AllUnmet(w: World, items: seq<Requirement>)
    requires |UnmetParts(w, items)| == |items|
    ensures UnmetAlternatives(w, items) == Some(UnmetParts(w, items))
  {
    if items != [] {
      UnmetPartsWithin(w, items[1..]);
      AllUnmet(w, items[1..]);
    }
  }

  lemma UnmetPartsWithin(w: World, items: seq<Requirement>)
    ensures |UnmetParts(w, items)| <= |items|
  {
  }

  /** The card's hint: what a list of requirements still needs. */
  function Needs(w: World, entries: seq<Requirement>): Option<Words> {
    var unmet := UnmetParts(w, entries);
    if unmet == [] then None else Some(Joined(unmet, And))
  }

  /** The hint is silent exactly when the requirement is met. */
  lemma {:induction false} UnmetWordsAgree(w: World, r: Requirement)
    ensures UnmetWords(w, r).None? <==> Holds(w, r)
    decreases r, 0
  {
    match r
    case All(items) => UnmetPartsAgree(w, items);
    case Any(items) => UnmetPartsAgree(w, items);
    case Unless(item) =>
    case Of(leaf) =>
  }

  lemma {:induction false} UnmetPartsAgree(w: World, items: seq<Requirement>)
    ensures UnmetParts(w, items) == [] <==> forall i | 0 <= i < |items| :: Holds(w, items[i])
    ensures UnmetAlternatives(w, items).None? <==> exists i | 0 <= i < |items| :: Holds(w, items[i])
    decreases items, 1
  {
    if items != [] {
      UnmetWordsAgree(w, items[0]);
      UnmetPartsAgree(w, items[1..]);
      assert items == [items[0]] + items[1..];
    }
  }

  /** The card is silent about a list exactly when every entry of it is met. */
  lemma NeedsAgree(w: World, entries: seq<Requirement>)
    ensures Needs(w, entries).None? <==> forall i | 0 <= i < |entries| :: Holds(w, entries[i])
  {
    UnmetPartsAgree(w, entries);
  }

  /** And what it says is what a requirement of all of them says. */
  lemma NeedsSpeakAsOne(w: World, entries: seq<Requirement>)
    ensures Needs(w, entries) == UnmetWords(w, All(entries))
  {
  }

  // ─── What the hint names is what to get ───────────────────────────────────

  /** No negation anywhere, and no alternative without a branch. */
  predicate Positive(r: Requirement) {
    match r
    case All(items) => forall i | 0 <= i < |items| :: Positive(items[i])
    case Any(items) => items != [] && forall i | 0 <= i < |items| :: Positive(items[i])
    case Unless(item) => false
    case Of(leaf) => true
  }

  ghost predicate NamesOnlyUnmet(w: World, words: Words) {
    forall leaf :: Word(leaf) in words ==> !w(leaf)
  }

  /** A world no true leaf of the first turned false in, and every named leaf true in. */
  ghost predicate Supplies(w: World, words: Words, later: World) {
    && (forall leaf :: w(leaf) ==> later(leaf))
    && (forall leaf :: Word(leaf) in words ==> later(leaf))
  }

  lemma JoinedMembers(parts: seq<Words>, separator: Token, t: Token)
    ensures t in Joined(parts, separator) ==> t == separator || exists i :: 0 <= i < |parts| && t in parts[i]
    ensures (exists i :: 0 <= i < |parts| && t in parts[i]) ==> t in Joined(parts, separator)
  {
    if |parts| > 1 {
      JoinedMembers(parts[1..], separator, t);
      assert parts == [parts[0]] + parts[1..];
    }
  }

  /** Every leaf the hint names is false now. */
  lemma {:induction false} HintNamesOnlyUnmet(w: World, r: Requirement)
    requires Positive(r) && UnmetWords(w, r).Some?
    ensures NamesOnlyUnmet(w, UnmetWords(w, r).value)
    decreases r, 0
  {
    match r
    case All(items) =>
      PartsNameOnlyUnmet(w, items);
      forall leaf | Word(leaf) in UnmetWords(w, r).value
        ensures !w(leaf)
      {
        JoinedMembers(UnmetParts(w, items), And, Word(leaf));
      }
    case Any(items) =>
      PartsNameOnlyUnmet(w, items);
      forall leaf | Word(leaf) in UnmetWords(w, r).value
        ensures !w(leaf)
      {
        JoinedMembers(UnmetAlternatives(w, items).value, Or, Word(leaf));
      }
    case Of(leaf) =>
  }

  lemma {:induction false} PartsNameOnlyUnmet(w: World, items: seq<Requirement>)
    requires forall i | 0 <= i < |items| :: Positive(items[i])
    ensures forall i | 0 <= i < |UnmetParts(w, items)| :: NamesOnlyUnmet(w, UnmetParts(w, items)[i])
    ensures var alternatives := UnmetAlternatives(w, items);
            alternatives.Some? ==>
              forall i | 0 <= i < |alternatives.value| :: NamesOnlyUnmet(w, alternatives.value[i])
    decreases items, 1
  {
    if items != [] {
      if UnmetWords(w, items[0]).Some? {
        HintNamesOnlyUnmet(w, items[0]);
      }
      PartsNameOnlyUnmet(w, items[1..]);
    }
  }

  /** Getting what the hint names, while losing nothing held, meets the requirement. */
  lemma {:induction false} HintSuffices(w: World, r: Requirement, later: World)
    requires Positive(r)
    requires Supplies(w, if UnmetWords(w, r).Some? then UnmetWords(w, r).value else [], later)
    ensures Holds(later, r)
    decreases r, 0
  {
    match r
    case All(items) =>
      forall i, t | 0 <= i < |UnmetParts(w, items)| && t in UnmetParts(w, items)[i]
        ensures t in Joined(UnmetParts(w, items), And)
      {
        JoinedMembers(UnmetParts(w, items), And, t);
      }
      PartsSuffice(w, items, later);
    case Any(items) =>
      var alternatives := UnmetAlternatives(w, items);
      if alternatives.None? {
        UnmetPartsAgree(w, items);
        var i :| 0 <= i < |items| && Holds(w, items[i]);
        UnmetWordsAgree(w, items[i]);
        HintSuffices(w, items[i], later);
      } else {
        UnmetWordsAgree(w, items[0]);
        forall t | t in alternatives.value[0]
          ensures t in Joined(alternatives.value, Or)
        {
          JoinedMembers(alternatives.value, Or, t);
        }
        HintSuffices(w, items[0], later);
      }
    case Of(leaf) =>
  }

  lemma {:induction false} PartsSuffice(w: World, items: seq<Requirement>, later: World)
    requires forall i | 0 <= i < |items| :: Positive(items[i])
    requires Supplies(w, [], later)
    requires forall i | 0 <= i < |UnmetParts(w, items)| :: Supplies(w, UnmetParts(w, items)[i], later)
    ensures forall i | 0 <= i < |items| :: Holds(later, items[i])
    decreases items, 1
  {
    if items != [] {
      var rest := UnmetParts(w, items[1..]);
      var first := UnmetWords(w, items[0]);
      var before := if first.Some? then [first.value] else [];
      assert UnmetParts(w, items) == before + rest;
      assert first.Some? ==> UnmetParts(w, items)[0] == first.value;
      forall i | 0 <= i < |rest|
        ensures Supplies(w, rest[i], later)
      {
        assert rest[i] == UnmetParts(w, items)[|before| + i];
      }
      HintSuffices(w, items[0], later);
      PartsSuffice(w, items[1..], later);
      assert items == [items[0]] + items[1..];
    }
  }
}
