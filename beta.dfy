/** The beta classifier (internal/beta/utils.go): single-result rules that
    return at most one archetype, with an optional sub-archetype. */
module Beta {
  import opened Deck
  import opened Projection
  import opened Rules

  /** The beta `DeckType`. Its `DeckCard` entries have the shape of `MainCard`.
      The `AcespecCard` field is never filled by the rules and is not modelled. */
  datatype BetaDeckType = BetaDeckType(
    mainTitle: string,
    subTitle: string,
    mainCards: seq<MainCard>,
    subCards: seq<MainCard>)

  /** The value `DeckType{}`: every field at its zero value. */
  const EmptyDeckType := BetaDeckType("", "", [], [])

  /** The two branches of `analyzeJoltik`, in the order they are tried. */
  const JoltikRules: seq<Rule> := [
    Rule(And(AtLeast("バチュル", 2), AtLeast("サーフゴーex", 3)), "バチュル&サーフゴーex", ["バチュル", "サーフゴーex"]),
    Rule(And(AtLeast("バチュル", 2), Exactly("サーフゴーex", 0)), "バチュルバレット", ["バチュル"])
  ]

  /** The conditions of the two branches, read back as count comparisons. */
  lemma JoltikConditions(counts: CountMap)
    ensures |JoltikRules| == 2
    ensures Eval(JoltikRules[0].pred, counts) <==>
            Lookup(counts, "バチュル") >= 2 && Lookup(counts, "サーフゴーex") >= 3
    ensures Eval(JoltikRules[1].pred, counts) <==>
            Lookup(counts, "バチュル") >= 2 && Lookup(counts, "サーフゴーex") == 0
  {
    assert JoltikRules[0].pred == And(AtLeast("バチュル", 2), AtLeast("サーフゴーex", 3));
    assert JoltikRules[1].pred == And(AtLeast("バチュル", 2), Exactly("サーフゴーex", 0));
  }

  /** First match over the two branches: the first whose condition holds wins. */
  lemma JoltikFirstMatch(counts: CountMap, deck: seq<Card>)
    ensures FirstMatch(JoltikRules, counts, deck) ==
      if Eval(JoltikRules[0].pred, counts) then Some(Outcome(JoltikRules[0], deck))
      else if Eval(JoltikRules[1].pred, counts) then Some(Outcome(JoltikRules[1], deck))
      else None
  {
    var rest := JoltikRules[1..];
    assert rest == [JoltikRules[1]] && rest[1..] == [];
    assert FirstMatch(rest, counts, deck) ==
      if Eval(JoltikRules[1].pred, counts) then Some(Outcome(JoltikRules[1], deck))
      else FirstMatch(rest[1..], counts, deck);
  }

  /** `analyzeJoltik` as a specification: the first branch that holds, with no sub-archetype. */
  function Joltik(counts: CountMap, deck: seq<Card>): Option<BetaDeckType>
  {
    match FirstMatch(JoltikRules, counts, deck)
    case None => None
    case Some(d) => Some(BetaDeckType(d.title, "", d.mainCards, []))
  }

  /** The if/else-if chain of `analyzeJoltik`. */
  method AnalyzeJoltik(cardlist: CountMap, deck: seq<Card>) returns (deckType: Option<BetaDeckType>)
    ensures deckType == Joltik(cardlist, deck)
  {
    JoltikConditions(cardlist);
    JoltikFirstMatch(cardlist, deck);
    if Lookup(cardlist, "バチュル") >= 2 && Lookup(cardlist, "サーフゴーex") >= 3 {
      var mainCards := ProjectCards(deck, ["バチュル", "サーフゴーex"]);
      deckType := Some(BetaDeckType("バチュル&サーフゴーex", "", mainCards, []));
    } else if Lookup(cardlist, "バチュル") >= 2 && Lookup(cardlist, "サーフゴーex") == 0 {
      var mainCards := ProjectCards(deck, ["バチュル"]);
      deckType := Some(BetaDeckType("バチュルバレット", "", mainCards, []));
    } else {
      deckType := None;
    }
  }

  /** Fewer than two バチュル, or one or two サーフゴーex, give no Joltik archetype;
      every other count gives one, titled by the サーフゴーex count. */
  lemma JoltikCases(counts: CountMap, deck: seq<Card>)
    ensures Lookup(counts, "バチュル") < 2 ==> Joltik(counts, deck) == None
    ensures 1 <= Lookup(counts, "サーフゴーex") <= 2 ==> Joltik(counts, deck) == None
    ensures Joltik(counts, deck).Some? <==>
            Lookup(counts, "バチュル") >= 2 &&
            (Lookup(counts, "サーフゴーex") >= 3 || Lookup(counts, "サーフゴーex") == 0)
    ensures Joltik(counts, deck).Some? ==>
            Joltik(counts, deck).value.mainTitle ==
              (if Lookup(counts, "サーフゴーex") >= 3 then "バチュル&サーフゴーex" else "バチュルバレット")
  {
    JoltikConditions(counts);
    JoltikFirstMatch(counts, deck);
  }

  /** The two branches exclude each other, so trying them in the other order, or
      taking every branch that holds, would give the same archetype. */
  lemma JoltikBranchesExclusive(counts: CountMap, deck: seq<Card>)
    ensures !(Eval(JoltikRules[0].pred, counts) && Eval(JoltikRules[1].pred, counts))
    ensures |Matches(JoltikRules, counts, deck)| <= 1
  {
    JoltikConditions(counts);
    var first := JoltikRules[..1];
    assert first == [JoltikRules[0]] && first[..0] == [];
    assert |Matches(first, counts, deck)| == if Eval(JoltikRules[0].pred, counts) then 1 else 0;
    assert |Matches(JoltikRules, counts, deck)| ==
      |Matches(first, counts, deck)| + if Eval(JoltikRules[1].pred, counts) then 1 else 0;
  }

  /** A Joltik archetype never has a sub-archetype, and its cards are the
      projection of the name list of the branch that matched. */
  lemma JoltikHasNoSubArchetype(counts: CountMap, deck: seq<Card>)
    ensures Joltik(counts, deck).Some? ==>
      var d := Joltik(counts, deck).value;
      d.subTitle == "" && d.subCards == [] &&
      (d.mainTitle == "バチュル&サーフゴーex" ==>
         d.mainCards == Project(["バチュル", "サーフゴーex"], deck) &&
         SubsequenceOf(Names(d.mainCards), ["バチュル", "サーフゴーex"])) &&
      (d.mainTitle == "バチュルバレット" ==>
         d.mainCards == Project(["バチュル"], deck) && SubsequenceOf(Names(d.mainCards), ["バチュル"]))
  {
    JoltikConditions(counts);
    JoltikFirstMatch(counts, deck);
    ProjectIsSubsequence(["バチュル", "サーフゴーex"], deck);
    ProjectIsSubsequence(["バチュル"], deck);
  }

  /** The main condition of `analyzeGholdengo_ex` and the condition of its refinement. */
  const GholdengoPred := And(AtLeast("サーフゴーex", 3), Exactly("バチュル", 0))
  const LunatoneSolrockPred := And(AtLeast("ルナトーン", 2), AtLeast("ソルロック", 2))

  /** Both conditions, read back as count comparisons. */
  lemma GholdengoConditions(counts: CountMap)
    ensures Eval(GholdengoPred, counts) <==>
            Lookup(counts, "サーフゴーex") >= 3 && Lookup(counts, "バチュル") == 0
    ensures Eval(LunatoneSolrockPred, counts) <==>
            Lookup(counts, "ルナトーン") >= 2 && Lookup(counts, "ソルロック") >= 2
  {
    assert GholdengoPred == And(AtLeast("サーフゴーex", 3), Exactly("バチュル", 0));
    assert LunatoneSolrockPred == And(AtLeast("ルナトーン", 2), AtLeast("ソルロック", 2));
  }

  /** `analyzeGholdengo_ex` as a specification. */
  function Gholdengo(counts: CountMap, deck: seq<Card>): Option<BetaDeckType>
  {
    if !Eval(GholdengoPred, counts) then None
    else if Eval(LunatoneSolrockPred, counts) then
      Some(BetaDeckType("サーフゴーex", "ルナトーン/ソルロック",
        Project(["サーフゴーex"], deck), Project(["ルナトーン", "ソルロック"], deck)))
    else
      Some(BetaDeckType("サーフゴーex", "", Project(["サーフゴーex"], deck), []))
  }

  /** The body of `analyzeGholdengo_ex`: the main cards first, then the refinement
      block that reassigns the name list and sets the sub-title. */
  method AnalyzeGholdengoEx(cardlist: CountMap, deck: seq<Card>) returns (deckType: Option<BetaDeckType>)
    ensures deckType == Gholdengo(cardlist, deck)
  {
    GholdengoConditions(cardlist);
    if Lookup(cardlist, "サーフゴーex") >= 3 && Lookup(cardlist, "バチュル") == 0 {
      var subTitle := "";
      var subCards := [];
      var cards := ["サーフゴーex"];
      var mainCards := ProjectCards(deck, cards);
      if Lookup(cardlist, "ルナトーン") >= 2 && Lookup(cardlist, "ソルロック") >= 2 {
        cards := ["ルナトーン", "ソルロック"];
        subCards := ProjectCards(deck, cards);
        subTitle := "ルナトーン/ソルロック";
      }
      deckType := Some(BetaDeckType("サーフゴーex", subTitle, mainCards, subCards));
    } else {
      deckType := None;
    }
  }

  /** A Gholdengo archetype exists exactly when サーフゴーex counts at least three and バチュル nothing. */
  lemma GholdengoIff(counts: CountMap, deck: seq<Card>)
    ensures Gholdengo(counts, deck).Some? <==>
            Lookup(counts, "サーフゴーex") >= 3 && Lookup(counts, "バチュル") == 0
  {
    GholdengoConditions(counts);
  }

  /** The refinement sets the sub-title and sub-cards exactly when ルナトーン and
      ソルロック both count at least two; the main cards do not depend on it. */
  lemma GholdengoRefinement(counts: CountMap, deck: seq<Card>)
    requires Gholdengo(counts, deck).Some?
    ensures var d := Gholdengo(counts, deck).value;
      d.mainTitle == "サーフゴーex" &&
      d.mainCards == Project(["サーフゴーex"], deck) &&
      (d.subTitle == "ルナトーン/ソルロック" <==>
       Lookup(counts, "ルナトーン") >= 2 && Lookup(counts, "ソルロック") >= 2) &&
      (d.subTitle == "" <==> d.subTitle != "ルナトーン/ソルロック") &&
      (d.subTitle == "" ==> d.subCards == []) &&
      (d.subTitle != "" ==> d.subCards == Project(["ルナトーン", "ソルロック"], deck))
  {
    GholdengoConditions(counts);
  }

  /** The main and sub cards keep the order of their name lists, one entry at most per name. */
  lemma GholdengoCardsFollowNameLists(counts: CountMap, deck: seq<Card>)
    requires Gholdengo(counts, deck).Some?
    ensures var d := Gholdengo(counts, deck).value;
      SubsequenceOf(Names(d.mainCards), ["サーフゴーex"]) && |d.mainCards| <= 1 &&
      SubsequenceOf(Names(d.subCards), ["ルナトーン", "ソルロック"]) && Distinct(Names(d.subCards))
  {
    ProjectIsSubsequence(["サーフゴーex"], deck);
    ProjectIsSubsequence(["ルナトーン", "ソルロック"], deck);
    ProjectDistinct(["ルナトーン", "ソルロック"], deck);
  }

  /** No count map gives both a Joltik and a Gholdengo archetype. */
  lemma JoltikExcludesGholdengo(counts: CountMap, deck: seq<Card>)
    ensures !(Joltik(counts, deck).Some? && Gholdengo(counts, deck).Some?)
  {
    JoltikCases(counts, deck);
    GholdengoIff(counts, deck);
  }

  /** `GetM2a` after the fetch: 500 when the deck could not be obtained; the single
      Gholdengo archetype with 200 when there is one; otherwise `DeckType{}` with 204. */
  method GetM2a(fetch: Fetch) returns (response: Response<BetaDeckType>)
    ensures fetch.FetchFailed? ==> response == ErrorStatus(StatusInternalServerError)
    ensures fetch.Fetched? ==>
      var found := Gholdengo(CountMapOf(fetch.deck), fetch.deck);
      response == if found.Some? then Json(StatusOK, found.value) else Json(StatusNoContent, EmptyDeckType)
    ensures fetch.Fetched? && CountOf(fetch.deck, "サーフゴーex") >= 3 && "バチュル" !in NamesOf(fetch.deck) ==>
      response.Json? && response.status == StatusOK && response.body.mainTitle == "サーフゴーex"
  {
    if fetch.FetchFailed? {
      return ErrorStatus(StatusInternalServerError);
    }
    var deck := fetch.deck;
    var cardlist := Aggregate(deck);
    LookupCountMapOf(deck, "サーフゴーex");
    LookupCountMapOf(deck, "バチュル");
    GholdengoIff(cardlist, deck);
    var deckType := AnalyzeGholdengoEx(cardlist, deck);
    if deckType.Some? {
      return Json(StatusOK, deckType.value);
    }
    response := Json(StatusNoContent, EmptyDeckType);
  }
}
