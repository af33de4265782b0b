/** The representative-card projection `analyze` (internal/handlers/utils.go and,
    line for line the same, main.go): for each requested name in order, the first
    deck entry of that name, if there is one. */
module Projection {
  import opened Deck

  /** `MainCard` of the handlers and `DeckCard` of the beta package: name and image. */
  datatype MainCard = MainCard(name: string, imageUrl: string)

  /** One archetype of the ALL-mode handlers. */
  datatype DeckType = DeckType(title: string, mainCards: seq<MainCard>)

  /** The deck entry the inner loop stops at: the first one named `name`. */
  function FirstCard(deck: seq<Card>, name: string): (r: Option<Card>)
    ensures r.Some? ==> r.value in deck && r.value.name == name
    ensures r.None? <==> name !in NamesOf(deck)
  {
    if deck == [] then None
    else if deck[0].name == name then Some(deck[0])
    else
      var r := FirstCard(deck[1..], name);
      assert NamesOf(deck) == {deck[0].name} + NamesOf(deck[1..]) by {
        forall n | n in NamesOf(deck) ensures n in {deck[0].name} + NamesOf(deck[1..]) {
          var i :| 0 <= i < |deck| && deck[i].name == n;
          if i > 0 { assert deck[1..][i - 1].name == n; }
        }
        forall n | n in NamesOf(deck[1..]) ensures n in NamesOf(deck) {
          var i :| 0 <= i < |deck[1..]| && deck[1..][i].name == n;
          assert deck[i + 1].name == n;
        }
      }
      r
  }

  /** What one requested name contributes: the first matching entry, or nothing. */
  function Emit(deck: seq<Card>, name: string): seq<MainCard>
  {
    match FirstCard(deck, name)
    case None => []
    case Some(c) => [MainCard(c.name, c.imageUrl)]
  }

  /** The projected list for the requested names `cards`. */
  function Project(cards: seq<string>, deck: seq<Card>): (r: seq<MainCard>)
    ensures |r| <= |cards|
  {
    if cards == [] then []
    else Project(cards[..|cards| - 1], deck) + Emit(deck, cards[|cards| - 1])
  }

  /** The names of a list of projected cards. */
  function Names(cs: seq<MainCard>): (r: seq<string>)
    ensures |r| == |cs|
    ensures forall k :: 0 <= k < |cs| ==> r[k] == cs[k].name
  {
    if cs == [] then [] else Names(cs[..|cs| - 1]) + [cs[|cs| - 1].name]
  }

  /** The requested names that occur in `present`, in requested order. */
  function Present(cards: seq<string>, present: set<string>): seq<string>
  {
    if cards == [] then []
    else
      var last := cards[|cards| - 1];
      Present(cards[..|cards| - 1], present) + (if last in present then [last] else [])
  }

  /** `xs` is `ys` with some entries removed, the rest kept in order. */
  predicate SubsequenceOf(xs: seq<string>, ys: seq<string>)
  {
    if xs == [] then true
    else if ys == [] then false
    else if xs[|xs| - 1] == ys[|ys| - 1] then SubsequenceOf(xs[..|xs| - 1], ys[..|ys| - 1])
    else SubsequenceOf(xs, ys[..|ys| - 1])
  }

  /** How many times `n` occurs in `xs`. */
  function Occurrences(xs: seq<string>, n: string): nat
  {
    if xs == [] then 0
    else Occurrences(xs[..|xs| - 1], n) + (if xs[|xs| - 1] == n then 1 else 0)
  }

  predicate Distinct(xs: seq<string>)
  {
    forall i, j :: 0 <= i < j < |xs| ==> xs[i] != xs[j]
  }

  /** The output names are exactly the requested names present in the deck, in
      requested order: missing names are skipped without a placeholder. */
  lemma {:induction false} ProjectNames(cards: seq<string>, deck: seq<Card>)
    ensures Names(Project(cards, deck)) == Present(cards, NamesOf(deck))
  {
    if cards != [] {
      var init, last := cards[..|cards| - 1], cards[|cards| - 1];
      ProjectNames(init, deck);
      var p := Project(init, deck);
      var e := Emit(deck, last);
      assert Names(p + e) == Names(p) + Names(e);
    }
  }

  lemma {:induction false} PresentIsSubsequence(cards: seq<string>, present: set<string>)
    ensures SubsequenceOf(Present(cards, present), cards)
  {
    if cards != [] {
      var init, last := cards[..|cards| - 1], cards[|cards| - 1];
      PresentIsSubsequence(init, present);
      var p := Present(init, present);
      if last in present {
        assert (p + [last])[..|p|] == p;
        assert Present(cards, present) == p + [last];
      } else {
        assert Present(cards, present) == p;
        SubsequenceExtend(p, init, last);
        assert init + [last] == cards;
      }
    }
  }

  lemma {:induction false} SubsequenceExtend(xs: seq<string>, ys: seq<string>, y: string)
    requires SubsequenceOf(xs, ys)
    ensures SubsequenceOf(xs, ys + [y])
    decreases |ys|, 2
  {
    assert (ys + [y])[..|ys|] == ys;
    if xs != [] && xs[|xs| - 1] == y {
      SubsequenceDropLast(xs, ys);
    }
  }

  lemma {:induction false} SubsequenceDropLast(xs: seq<string>, ys: seq<string>)
    requires xs != [] && SubsequenceOf(xs, ys)
    ensures SubsequenceOf(xs[..|xs| - 1], ys)
    decreases |ys|, 1
  {
    var yinit := ys[..|ys| - 1];
    assert yinit + [ys[|ys| - 1]] == ys;
    if xs[|xs| - 1] == ys[|ys| - 1] {
      SubsequenceExtend(xs[..|xs| - 1], yinit, ys[|ys| - 1]);
    } else {
      SubsequenceDropLast(xs, yinit);
      SubsequenceExtend(xs[..|xs| - 1], yinit, ys[|ys| - 1]);
    }
  }

  /** The output names form a subsequence of the requested names, whatever the deck order. */
  lemma ProjectIsSubsequence(cards: seq<string>, deck: seq<Card>)
    ensures SubsequenceOf(Names(Project(cards, deck)), cards)
  {
    ProjectNames(cards, deck);
    PresentIsSubsequence(cards, NamesOf(deck));
  }

  /** Reordering the deck, or changing it in any way that keeps its set of names,
      does not change which names are projected nor their order. */
  lemma ProjectNamesIgnoreDeckOrder(cards: seq<string>, deck1: seq<Card>, deck2: seq<Card>)
    requires NamesOf(deck1) == NamesOf(deck2)
    ensures Names(Project(cards, deck1)) == Names(Project(cards, deck2))
  {
    ProjectNames(cards, deck1);
    ProjectNames(cards, deck2);
  }

  /** Every projected entry copies name and image from the first deck entry of that name. */
  lemma {:induction false} ProjectTakesFirstEntry(cards: seq<string>, deck: seq<Card>)
    ensures forall k :: 0 <= k < |Project(cards, deck)| ==>
      var c := Project(cards, deck)[k];
      FirstCard(deck, c.name).Some? && FirstCard(deck, c.name).value.imageUrl == c.imageUrl
  {
    if cards != [] {
      ProjectTakesFirstEntry(cards[..|cards| - 1], deck);
    }
  }

  /** The first entry of a name really is the first: no earlier entry has that name. */
  lemma {:induction false} FirstCardIsFirst(deck: seq<Card>, name: string)
    requires name in NamesOf(deck)
    ensures exists i :: 0 <= i < |deck| && FirstCard(deck, name) == Some(deck[i]) &&
                        forall j :: 0 <= j < i ==> deck[j].name != name
  {
    if deck[0].name != name {
      FirstCardIsFirst(deck[1..], name);
      var i :| 0 <= i < |deck[1..]| && FirstCard(deck[1..], name) == Some(deck[1..][i]) &&
               forall j :: 0 <= j < i ==> deck[1..][j].name != name;
      assert FirstCard(deck, name) == Some(deck[i + 1]);
      forall j | 0 <= j < i + 1 ensures deck[j].name != name {
        if j > 0 { assert deck[j] == deck[1..][j - 1]; }
      }
    } else {
      assert FirstCard(deck, name) == Some(deck[0]);
    }
  }

  /** An empty deck projects to an empty list whatever is requested. */
  lemma {:induction false} ProjectEmptyDeck(cards: seq<string>)
    ensures Project(cards, []) == []
  {
    if cards != [] {
      ProjectEmptyDeck(cards[..|cards| - 1]);
    }
  }

  /** A name is emitted once per time it is requested, if the deck holds it,
      and never otherwise: the projection does not deduplicate. */
  lemma {:induction false} PresentOccurrences(cards: seq<string>, present: set<string>, n: string)
    ensures Occurrences(Present(cards, present), n) == if n in present then Occurrences(cards, n) else 0
  {
    if cards != [] {
      var init, last := cards[..|cards| - 1], cards[|cards| - 1];
      PresentOccurrences(init, present, n);
      var p := Present(init, present);
      var e := if last in present then [last] else [];
      OccurrencesAppend(p, e, n);
    }
  }

  lemma {:induction false} OccurrencesAppend(xs: seq<string>, ys: seq<string>, n: string)
    ensures Occurrences(xs + ys, n) == Occurrences(xs, n) + Occurrences(ys, n)
  {
    if ys != [] {
      assert (xs + ys)[..|xs + ys| - 1] == xs + ys[..|ys| - 1];
      OccurrencesAppend(xs, ys[..|ys| - 1], n);
    } else {
      assert xs + ys == xs;
    }
  }

  lemma ProjectOccurrences(cards: seq<string>, deck: seq<Card>, n: string)
    ensures Occurrences(Names(Project(cards, deck)), n) ==
            if n in NamesOf(deck) then Occurrences(cards, n) else 0
  {
    ProjectNames(cards, deck);
    PresentOccurrences(cards, NamesOf(deck), n);
  }

  /** Distinct names occur at most once each. */
  lemma {:induction false} DistinctOccursOnce(xs: seq<string>, n: string)
    requires Distinct(xs)
    ensures Occurrences(xs, n) <= 1
  {
    if xs != [] {
      var init, last := xs[..|xs| - 1], xs[|xs| - 1];
      assert Distinct(init);
      DistinctOccursOnce(init, n);
      if last == n {
        OccurrencesIn(init, n);
      }
    }
  }

  /** Two positions holding the same name make it occur at least twice. */
  lemma {:induction false} RepeatOccursTwice(xs: seq<string>, i: nat, j: nat)
    requires i < j < |xs| && xs[i] == xs[j]
    ensures Occurrences(xs, xs[i]) >= 2
  {
    var init := xs[..|xs| - 1];
    if j < |xs| - 1 {
      RepeatOccursTwice(init, i, j);
    } else {
      assert init[i] == xs[i];
      OccurrencesIn(init, xs[i]);
    }
  }

  lemma {:induction false} OccurrencesIn(xs: seq<string>, n: string)
    ensures Occurrences(xs, n) > 0 <==> n in xs
  {
    if xs != [] {
      var init := xs[..|xs| - 1];
      OccurrencesIn(init, n);
      assert xs == init + [xs[|xs| - 1]];
    }
  }

  /** Distinct requested names give distinct output names ("at most one per requested name"). */
  lemma ProjectDistinct(cards: seq<string>, deck: seq<Card>)
    requires Distinct(cards)
    ensures Distinct(Names(Project(cards, deck)))
  {
    var out := Names(Project(cards, deck));
    forall i, j | 0 <= i < j < |out| ensures out[i] != out[j] {
      if out[i] == out[j] {
        RepeatOccursTwice(out, i, j);
        ProjectOccurrences(cards, deck, out[i]);
        DistinctOccursOnce(cards, out[i]);
      }
    }
  }

  /** The nested loop of `analyze`: outer loop over the requested names, inner
      loop over the deck, `break` at the first entry of that name. */
  method ProjectCards(deck: seq<Card>, cards: seq<string>) returns (mainCards: seq<MainCard>)
    ensures mainCards == Project(cards, deck)
  {
    mainCards := [];
    for i := 0 to |cards|
      invariant mainCards == Project(cards[..i], deck)
    {
      var cardname := cards[i];
      assert cards[..i + 1][..i] == cards[..i];
      ghost var before := mainCards;
      var j := 0;
      while j < |deck|
        invariant 0 <= j <= |deck|
        invariant mainCards == before
        invariant FirstCard(deck, cardname) == FirstCard(deck[j..], cardname)
      {
        var card := deck[j];
        if card.name == cardname {
          mainCards := mainCards + [MainCard(card.name, card.imageUrl)];
          break;
        }
        assert deck[j..][1..] == deck[j + 1..];
        j := j + 1;
      }
    }
    assert cards[..|cards|] == cards;
  }

  /** `analyze`: the title as given and the projected representative cards. */
  method Analyze(title: string, deck: seq<Card>, cards: seq<string>) returns (deckType: DeckType)
    ensures deckType.title == title
    ensures deckType.mainCards == Project(cards, deck)
  {
    var mainCards := ProjectCards(deck, cards);
    deckType := DeckType(title, mainCards);
  }
}
