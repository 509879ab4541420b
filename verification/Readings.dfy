/**
 Reading a requirement's words back: parenthesised "or" groups, "and" binding
 tighter than "or", "not" tightest. Says exactly which trees read back, what
 they read back as, and when that means what the tree means.
 */
module Readings {
  import opened Wrappers
  import opened Requirements

  datatype Factor = Bare(leaf: Leaf) | Either(alternatives: seq<Alternative>) | Negated(factor: Factor)

  datatype Alternative = Alternative(factors: seq<Factor>)

  /** A reading: factors joined by "and". */
  type Conjunction = seq<Factor>

  predicate Means(w: World, f: Factor) {
    match f
    case Bare(leaf) => w(leaf)
    case Either(alternatives) => exists i | 0 <= i < |alternatives| :: MeansAll(w, alternatives[i].factors)
    case Negated(factor) => !Means(w, factor)
  }

  predicate MeansAll(w: World, fs: Conjunction) {
    forall j | 0 <= j < |fs| :: Means(w, fs[j])
  }

  // ─── The reader ───────────────────────────────────────────────────────────

  function ReadFactor(ts: Words): (r: Option<(Factor, Words)>)
    ensures r.Some? ==> |r.value.1| < |ts|
    decreases |ts|, 0
  {
    if ts == [] then None
    else match ts[0]
      case Word(leaf) => Some((Bare(leaf), ts[1..]))
      case Not =>
        var inner := ReadFactor(ts[1..]);
        if inner.None? then None else Some((Negated(inner.value.0), inner.value.1))
      case Open =>
        var inner := ReadAlternatives(ts[1..]);
        if inner.None? then None else Some((Either(inner.value.0), inner.value.1))
      case _ => None
  }

  function ReadConjunction(ts: Words): (r: Option<(Conjunction, Words)>)
    ensures r.Some? ==> |r.value.1| < |ts| && r.value.0 != []
    decreases |ts|, 1
  {
    var first := ReadFactor(ts);
    if first.None? then None else Continued([first.value.0], first.value.1)
  }

  /** `fs` read so far, and whatever further factors an "and" announces. */
  function Continued(fs: Conjunction, rest: Words): (r: Option<(Conjunction, Words)>)
    ensures r.Some? ==> |r.value.1| <= |rest| && |fs| <= |r.value.0|
    decreases |rest|, 2
  {
    if rest != [] && rest[0] == And then
      var more := ReadConjunction(rest[1..]);
      if more.None? then None else Some((fs + more.value.0, more.value.1))
    else Some((fs, rest))
  }

  function ReadAlternatives(ts: Words): (r: Option<(seq<Alternative>, Words)>)
    ensures r.Some? ==> |r.value.1| < |ts|
    decreases |ts|, 2
  {
    var first := ReadConjunction(ts);
    if first.None? || first.value.1 == [] then None
    else match first.value.1[0]
      case Close => Some(([Alternative(first.value.0)], first.value.1[1..]))
      case Or =>
        var more := ReadAlternatives(first.value.1[1..]);
        if more.None? then None else Some(([Alternative(first.value.0)] + more.value.0, more.value.1))
      case _ => None
  }

  /** Reads a whole text, nothing left over. */
  function Read(ts: Words): Option<Conjunction> {
    var r := ReadConjunction(ts);
    if r.Some? && r.value.1 == [] then Some(r.value.0) else None
  }

  // ─── What a tree reads back as ────────────────────────────────────────────

  /** No empty list anywhere. */
  predicate Tidy(r: Requirement) {
    match r
    case All(items) => items != [] && forall i | 0 <= i < |items| :: Tidy(items[i])
    case Any(items) => items != [] && forall i | 0 <= i < |items| :: Tidy(items[i])
    case Unless(item) => Tidy(item)
    case Of(leaf) => true
  }

  predicate AllTidy(items: seq<Requirement>) {
    forall i | 0 <= i < |items| :: Tidy(items[i])
  }

  /** The factors a tree's words read back as: a negation reaches the first only. */
  function Factors(r: Requirement): (fs: Conjunction)
    requires Tidy(r)
    ensures fs != []
    decreases r, 0
  {
    match r
    case All(items) => FactorsOfAll(items)
    case Any(items) => [Either(FactorsOfEach(items))]
    case Unless(item) =>
      var fs := Factors(item);
      [Negated(fs[0])] + fs[1..]
    case Of(leaf) => [Bare(leaf)]
  }

  function FactorsOfAll(items: seq<Requirement>): (fs: Conjunction)
    requires AllTidy(items)
    ensures items != [] ==> fs != []
    decreases items, 1
  {
    if items == [] then [] else Factors(items[0]) + FactorsOfAll(items[1..])
  }

  function FactorsOfEach(items: seq<Requirement>): (alternatives: seq<Alternative>)
    requires AllTidy(items)
    ensures |alternatives| == |items|
    ensures forall i | 0 <= i < |items| :: alternatives[i] == Alternative(Factors(items[i]))
    decreases items, 1
  {
    if items == [] then [] else [Alternative(Factors(items[0]))] + FactorsOfEach(items[1..])
  }

  /** What may stand after a requirement's words inside a larger text. */
  predicate Follows(rest: Words) {
    rest == [] || rest[0] in {And, Or, Close}
  }

  lemma ContinuedJoins(fs: Conjunction, gs: Conjunction, rest: Words)
    ensures Continued(fs + gs, rest)
            == match Continued(gs, rest)
               case None => None
               case Some(r) => Some((fs + r.0, r.1))
  {
    if rest != [] && rest[0] == And {
      var more := ReadConjunction(rest[1..]);
      if more.Some? {
        assert fs + gs + more.value.0 == fs + (gs + more.value.0);
      }
    }
  }

  lemma AndContinues(fs: Conjunction, ts: Words)
    ensures Continued(fs, [And] + ts)
            == match ReadConjunction(ts)
               case None => None
               case Some(r) => Some((fs + r.0, r.1))
  {
    assert ([And] + ts)[1..] == ts;
  }

  lemma TurnedContinues(fs: Conjunction, rest: Words)
    requires fs != []
    ensures Continued([Negated(fs[0])] + fs[1..], rest)
            == match Continued(fs, rest)
               case None => None
               case Some(r) => Some(([Negated(r.0[0])] + r.0[1..], r.1))
  {
    if rest != [] && rest[0] == And {
      var more := ReadConjunction(rest[1..]);
      if more.Some? {
        assert [Negated(fs[0])] + fs[1..] + more.value.0 == [Negated(fs[0])] + (fs + more.value.0)[1..];
      }
    }
  }

  /** A "not" in front of a text turns its first factor and nothing else. */
  lemma NotTurnsFirst(ts: Words)
    ensures ReadConjunction([Not] + ts)
            == match ReadConjunction(ts)
               case None => None
               case Some(r) => Some(([Negated(r.0[0])] + r.0[1..], r.1))
  {
    assert ([Not] + ts)[1..] == ts;
    var first := ReadFactor(ts);
    if first.Some? {
      var f, rest := first.value.0, first.value.1;
      assert ReadFactor([Not] + ts) == Some((Negated(f), rest));
      TurnedContinues([f], rest);
      assert [Negated(f)] + [f][1..] == [Negated(f)];
    }
  }

  /** Alternatives in their brackets read as one factor. */
  lemma OpenReads(items: seq<Requirement>, body: Words, rest: Words)
    requires items == [] ==> body == []
    requires items != [] ==>
               ReadAlternatives(body + ([Close] + rest)) == if AllTidy(items) then Some((FactorsOfEach(items), rest)) else None
    ensures ReadConjunction([Open] + body + [Close] + rest)
            == if items != [] && AllTidy(items) then Continued([Either(FactorsOfEach(items))], rest) else None
  {
    var ts := [Open] + body + [Close] + rest;
    assert ts == [Open] + (body + ([Close] + rest));
    assert ts[1..] == body + ([Close] + rest);
    if items == [] {
      assert body + ([Close] + rest) == [Close] + rest;
      assert ReadConjunction([Close] + rest).None?;
      assert ReadFactor(ts).None?;
    } else {
      var inner := ReadAlternatives(ts[1..]);
      assert ReadFactor(ts) == if inner.None? then None else Some((Either(inner.value.0), inner.value.1));
    }
  }

  /** What reading makes of a requirement's words with something after them. */
  lemma {:induction false} ReadsBack(r: Requirement, rest: Words)
    requires Follows(rest)
    ensures ReadConjunction(RequirementWords(r) + rest) == if Tidy(r) then Continued(Factors(r), rest) else None
    decreases r, 0
  {
    match r
    case Of(leaf) =>
      assert ([Word(leaf)] + rest)[1..] == rest;
    case Unless(item) =>
      ReadsBack(item, rest);
      NotTurnsFirst(RequirementWords(item) + rest);
      assert [Not] + RequirementWords(item) + rest == [Not] + (RequirementWords(item) + rest);
      if Tidy(item) {
        TurnedContinues(Factors(item), rest);
      }
    case All(items) =>
      if items == [] {
        assert RequirementWords(r) + rest == rest;
      } else {
        AllReadsBack(items, rest);
      }
    case Any(items) =>
      hide ReadConjunction, ReadAlternatives, Continued;
      if items != [] {
        AnyReadsBack(items, rest);
      }
      OpenReads(items, Joined(EachInWords(items), Or), rest);
  }

  lemma {:induction false} AllReadsBack(items: seq<Requirement>, rest: Words)
    requires items != [] && Follows(rest)
    ensures ReadConjunction(Joined(EachInWords(items), And) + rest)
            == if AllTidy(items) then Continued(FactorsOfAll(items), rest) else None
    decreases items, 1
  {
    var first, more := items[0], items[1..];
    assert items == [first] + more;
    assert AllTidy(items) <==> Tidy(first) && AllTidy(more);
    if more == [] {
      ReadsBack(first, rest);
      assert Joined(EachInWords(items), And) == RequirementWords(first);
      assert Tidy(first) ==> FactorsOfAll(items) == Factors(first);
    } else {
      var tail := Joined(EachInWords(more), And) + rest;
      assert EachInWords(items)[1..] == EachInWords(more);
      assert Joined(EachInWords(items), And) + rest == RequirementWords(first) + ([And] + tail);
      ReadsBack(first, [And] + tail);
      AllReadsBack(more, rest);
      if Tidy(first) {
        AndContinues(Factors(first), tail);
      }
      if AllTidy(items) {
        ContinuedJoins(Factors(first), FactorsOfAll(more), rest);
      }
    }
  }

  lemma {:induction false} AnyReadsBack(items: seq<Requirement>, rest: Words)
    requires items != []
    ensures ReadAlternatives(Joined(EachInWords(items), Or) + ([Close] + rest))
            == if AllTidy(items) then Some((FactorsOfEach(items), rest)) else None
    decreases items, 1
  {
    var first, more := items[0], items[1..];
    assert items == [first] + more;
    assert AllTidy(items) <==> Tidy(first) && AllTidy(more);
    if more == [] {
      ReadsBack(first, [Close] + rest);
      assert Joined(EachInWords(items), Or) == RequirementWords(first);
      assert ([Close] + rest)[1..] == rest;
      assert Tidy(first) ==> FactorsOfEach(items) == [Alternative(Factors(first))];
    } else {
      var tail := Joined(EachInWords(more), Or) + ([Close] + rest);
      assert EachInWords(items)[1..] == EachInWords(more);
      assert Joined(EachInWords(items), Or) + ([Close] + rest) == RequirementWords(first) + ([Or] + tail);
      ReadsBack(first, [Or] + tail);
      AnyReadsBack(more, rest);
      assert ([Or] + tail)[1..] == tail;
    }
  }

  /** A requirement's words read back exactly when it holds no empty list. */
  lemma WordsReadBack(r: Requirement)
    ensures Read(RequirementWords(r)) == if Tidy(r) then Some(Factors(r)) else None
  {
    ReadsBack(r, []);
    assert RequirementWords(r) + [] == RequirementWords(r);
  }

  // ─── What the reading means ───────────────────────────────────────────────

  /** No negation directly around what prints as several factors. */
  predicate Readable(r: Requirement)
    requires Tidy(r)
  {
    match r
    case All(items) => forall i | 0 <= i < |items| :: Readable(items[i])
    case Any(items) => forall i | 0 <= i < |items| :: Readable(items[i])
    case Unless(item) => Readable(item) && |Factors(item)| == 1
    case Of(leaf) => true
  }

  lemma MeansAllJoins(w: World, fs: Conjunction, gs: Conjunction)
    ensures MeansAll(w, fs + gs) <==> MeansAll(w, fs) && MeansAll(w, gs)
  {
    if MeansAll(w, fs + gs) {
      assert forall j | 0 <= j < |fs| :: fs[j] == (fs + gs)[j];
      assert forall j | 0 <= j < |gs| :: gs[j] == (fs + gs)[|fs| + j];
    }
  }

  lemma MeansOne(w: World, f: Factor)
    ensures MeansAll(w, [f]) <==> Means(w, f)
  {
    assert [f][0] == f;
  }

  /** A readable tree's words mean, in every world, what the tree means. */
  lemma {:induction false} ReadingKeepsMeaning(w: World, r: Requirement)
    requires Tidy(r) && Readable(r)
    ensures MeansAll(w, Factors(r)) <==> Holds(w, r)
    decreases r, 0
  {
    match r
    case All(items) => AllKeepMeaning(w, items);
    case Any(items) =>
      forall i | 0 <= i < |items|
        ensures MeansAll(w, FactorsOfEach(items)[i].factors) <==> Holds(w, items[i])
      {
        ReadingKeepsMeaning(w, items[i]);
      }
      var either := Either(FactorsOfEach(items));
      MeansOne(w, either);
      assert Means(w, either) <==> exists i | 0 <= i < |items| :: MeansAll(w, FactorsOfEach(items)[i].factors);
    case Unless(item) =>
      ReadingKeepsMeaning(w, item);
      var f := Factors(item)[0];
      assert Factors(item) == [f] && Factors(r) == [Negated(f)];
      MeansOne(w, f);
      MeansOne(w, Negated(f));
    case Of(leaf) => MeansOne(w, Bare(leaf));
  }

  lemma {:induction false} AllKeepMeaning(w: World, items: seq<Requirement>)
    requires AllTidy(items)
    requires forall i | 0 <= i < |items| :: Readable(items[i])
    ensures MeansAll(w, FactorsOfAll(items)) <==> forall i | 0 <= i < |items| :: Holds(w, items[i])
    decreases items, 1
  {
    if items != [] {
      assert items == [items[0]] + items[1..];
      ReadingKeepsMeaning(w, items[0]);
      AllKeepMeaning(w, items[1..]);
      MeansAllJoins(w, Factors(items[0]), FactorsOfAll(items[1..]));
    }
  }

  /**
   A negation's words mean what the negation means in exactly the worlds where
   every factor after the first holds: always for a single factor, and never
   for the rest of a conjunction that fails.
   */
  lemma {:induction false} NegationReadsRightExactly(w: World, item: Requirement)
    requires Tidy(item) && Readable(item)
    ensures (MeansAll(w, Factors(Unless(item))) <==> Holds(w, Unless(item)))
            <==> MeansAll(w, Factors(item)[1..])
  {
    var fs := Factors(item);
    ReadingKeepsMeaning(w, item);
    MeansOne(w, fs[0]);
    MeansOne(w, Negated(fs[0]));
    MeansAllJoins(w, [Negated(fs[0])], fs[1..]);
    MeansAllJoins(w, [fs[0]], fs[1..]);
    assert fs == [fs[0]] + fs[1..];
  }

  /** The words of "not both" read as "not this one, and that one". */
  lemma NotBothMisreads(a: Leaf, b: Leaf, w: World)
    requires !w(b)
    ensures var r := Unless(All([Of(a), Of(b)]));
            Holds(w, r) && Tidy(r) && Read(RequirementWords(r)) == Some(Factors(r)) && !MeansAll(w, Factors(r))
  {
    var items := [Of(a), Of(b)];
    var r := Unless(All(items));
    WordsReadBack(r);
    assert !Holds(w, items[1]);
    assert Tidy(items[0]) && Tidy(items[1]);
    assert items[1..] == [Of(b)] && items[1..][1..] == [];
    assert FactorsOfAll(items[1..]) == [Bare(b)];
    assert FactorsOfAll(items) == [Bare(a), Bare(b)];
    assert Factors(r)[1] == Bare(b);
  }

  // ─── What the hint's own words mean ───────────────────────────────────────

  /** What is left of a requirement for the hint to put in words. */
  function Residue(w: World, r: Requirement): Requirement
    decreases r, 0
  {
    match r
    case All(items) => All(Residues(w, items))
    case Any(items) => Any(Residues(w, items))
    case Unless(_) => r
    case Of(_) => r
  }

  /** The residues of the unmet items. */
  function Residues(w: World, items: seq<Requirement>): seq<Requirement>
    decreases items, 1
  {
    if items == [] then []
    else (if Holds(w, items[0]) then [] else [Residue(w, items[0])]) + Residues(w, items[1..])
  }

  /** The hint is the residue in words. */
  lemma {:induction false} HintIsResidue(w: World, r: Requirement)
    requires !Holds(w, r)
    ensures UnmetWords(w, r) == Some(RequirementWords(Residue(w, r)))
    decreases r, 0
  {
    match r
    case All(items) =>
      PartsAreResidues(w, items);
      UnmetPartsAgree(w, items);
    case Any(items) =>
      PartsAreResidues(w, items);
      AllUnmetParts(w, items);
      AllUnmet(w, items);
    case Unless(_) =>
    case Of(_) =>
  }

  lemma {:induction false} PartsAreResidues(w: World, items: seq<Requirement>)
    ensures UnmetParts(w, items) == EachInWords(Residues(w, items))
    decreases items, 1
  {
    if items != [] {
      UnmetWordsAgree(w, items[0]);
      PartsAreResidues(w, items[1..]);
      if !Holds(w, items[0]) {
        HintIsResidue(w, items[0]);
        var first, rest := Residue(w, items[0]), Residues(w, items[1..]);
        EachNext(first, rest);
        assert Residues(w, items) == [first] + rest;
        assert UnmetParts(w, items) == [RequirementWords(first)] + UnmetParts(w, items[1..]);
      } else {
        assert Residues(w, items) == Residues(w, items[1..]) && UnmetParts(w, items) == UnmetParts(w, items[1..]);
      }
    }
  }

  lemma EachNext(first: Requirement, rest: seq<Requirement>)
    ensures EachInWords([first] + rest) == [RequirementWords(first)] + EachInWords(rest)
  {
    assert ([first] + rest)[1..] == rest;
  }

  lemma {:induction false} AllUnmetParts(w: World, items: seq<Requirement>)
    requires forall i | 0 <= i < |items| :: !Holds(w, items[i])
    ensures |UnmetParts(w, items)| == |items|
  {
    if items != [] {
      UnmetWordsAgree(w, items[0]);
      AllUnmetParts(w, items[1..]);
    }
  }

  /** Whether nothing a requirement asks for that was met is lost later: the whole,
      and every item of it down to its negations. */
  ghost predicate NothingLost(w: World, later: World, r: Requirement) {
    && (Holds(w, r) ==> Holds(later, r))
    && match r
       case All(items) => forall i | 0 <= i < |items| :: NothingLost(w, later, items[i])
       case Any(items) => forall i | 0 <= i < |items| :: NothingLost(w, later, items[i])
       case Unless(_) => true
       case Of(_) => true
  }

  /** With nothing lost, the residue is all that is still to meet. */
  lemma {:induction false} ResidueSuffices(w: World, later: World, r: Requirement)
    requires !Holds(w, r) && NothingLost(w, later, r)
    ensures Holds(later, Residue(w, r)) <==> Holds(later, r)
    decreases r, 0
  {
    match r
    case All(items) => ResiduesSuffice(w, later, items);
    case Any(items) => ResiduesSuffice(w, later, items);
    case Unless(_) =>
    case Of(_) =>
  }

  lemma {:induction false} ResiduesSuffice(w: World, later: World, items: seq<Requirement>)
    requires forall i | 0 <= i < |items| :: NothingLost(w, later, items[i])
    ensures (forall i | 0 <= i < |Residues(w, items)| :: Holds(later, Residues(w, items)[i]))
            <==> forall i | 0 <= i < |items| :: Holds(later, items[i])
    ensures (forall i | 0 <= i < |items| :: !Holds(w, items[i])) ==>
              ((exists i | 0 <= i < |Residues(w, items)| :: Holds(later, Residues(w, items)[i]))
               <==> exists i | 0 <= i < |items| :: Holds(later, items[i]))
    decreases items, 1
  {
    if items != [] {
      var head, tail, rest := items[0], items[1..], Residues(w, items[1..]);
      ResiduesSuffice(w, later, tail);
      assert items == [head] + tail;
      if !Holds(w, head) {
        ResidueSuffices(w, later, head);
        var first := Residue(w, head);
        assert Residues(w, items) == [first] + rest;
        HoldsJoined(later, first, rest);
      } else {
        assert Residues(w, items) == rest;
      }
      HoldsJoined(later, head, tail);
    }
  }

  lemma HoldsJoined(w: World, first: Requirement, rest: seq<Requirement>)
    ensures (forall i | 0 <= i < |[first] + rest| :: Holds(w, ([first] + rest)[i]))
            <==> Holds(w, first) && forall i | 0 <= i < |rest| :: Holds(w, rest[i])
    ensures (exists i | 0 <= i < |[first] + rest| :: Holds(w, ([first] + rest)[i]))
            <==> Holds(w, first) || exists i | 0 <= i < |rest| :: Holds(w, rest[i])
  {
    var all := [first] + rest;
    assert all[0] == first && forall i | 0 <= i < |rest| :: all[i + 1] == rest[i];
  }

  /** A residue is tidy and readable where the requirement is. */
  lemma {:induction false} ResidueReads(w: World, r: Requirement)
    requires !Holds(w, r) && Tidy(r) && Readable(r)
    ensures Tidy(Residue(w, r)) && Readable(Residue(w, r))
    decreases r, 0
  {
    match r
    case All(items) =>
      ResiduesRead(w, items);
      var i :| 0 <= i < |items| && !Holds(w, items[i]);
      ResiduesLeft(w, items, i);
    case Any(items) =>
      ResiduesRead(w, items);
      ResiduesLeft(w, items, 0);
    case Unless(_) =>
    case Of(_) =>
  }

  lemma {:induction false} ResiduesRead(w: World, items: seq<Requirement>)
    requires AllTidy(items) && forall i | 0 <= i < |items| :: Readable(items[i])
    ensures AllTidy(Residues(w, items)) && forall i | 0 <= i < |Residues(w, items)| :: Readable(Residues(w, items)[i])
    decreases items, 1
  {
    if items != [] {
      ResiduesRead(w, items[1..]);
      if !Holds(w, items[0]) {
        ResidueReads(w, items[0]);
        var first, rest := Residue(w, items[0]), Residues(w, items[1..]);
        assert Residues(w, items) == [first] + rest && ([first] + rest)[1..] == rest;
      }
    }
  }

  lemma {:induction false} ResiduesLeft(w: World, items: seq<Requirement>, i: nat)
    requires i < |items| && !Holds(w, items[i])
    ensures Residues(w, items) != []
  {
    if i > 0 {
      ResiduesLeft(w, items[1..], i - 1);
    }
  }

  /**
   The hint read back: in any later world where nothing met has been lost, what
   its words say holds exactly when the whole requirement is met, for trees with
   no empty list and no negation around several factors.
   */
  lemma {:induction false} HintReadsTrue(w: World, later: World, r: Requirement) returns (read: Conjunction)
    requires !Holds(w, r) && Tidy(r) && Readable(r) && NothingLost(w, later, r)
    ensures UnmetWords(w, r).Some? && Read(UnmetWords(w, r).value) == Some(read)
    ensures MeansAll(later, read) <==> Holds(later, r)
  {
    HintIsResidue(w, r);
    ResidueReads(w, r);
    read := Factors(Residue(w, r));
    WordsReadBack(Residue(w, r));
    ReadingKeepsMeaning(later, Residue(w, r));
    ResidueSuffices(w, later, r);
  }
}
