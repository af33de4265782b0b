/** `Get` of the server's main package (main.go): aggregate the deck, run its
    cascade in ALL mode, and reply 200 whatever the list holds; a failed fetch
    writes no response at all. */
module MainGet {
  import opened Deck
  import opened Projection
  import opened Rules
  import opened MainTable

  /** The handler after the fetch: nothing written when the deck could not be
      obtained, otherwise the ALL-mode list with status 200, empty or not. */
  method Get(fetch: Fetch) returns (response: Response<seq<DeckType>>)
    ensures fetch.FetchFailed? ==> response == NoResponse
    ensures fetch.Fetched? ==>
      response == Json(StatusOK, Matches(Table, CountMapOf(fetch.deck), fetch.deck))
    ensures fetch.Fetched? ==>
      InDeclarationOrder(Table, CountMapOf(fetch.deck), fetch.deck, response.body)
  {
    if fetch.FetchFailed? {
      return NoResponse;
    }
    var deck := fetch.deck;
    var cardlist := Aggregate(deck);
    var deckTypes := EvaluateAll(Table, cardlist, deck);
    MatchesInDeclarationOrder(Table, cardlist, deck);
    response := Json(StatusOK, deckTypes);
  }

  /** The conditions alone, before they are placed in the table. */
  lemma MiraidonConditionExcludesJoltikBullet(counts: CountMap)
    ensures !(Eval(Rule37.pred, counts) && Eval(Rule38.pred, counts))
  {
    ConjunctHolds(Rule37.pred, 1, Exactly("バチュル", 0), counts);
    ConjunctHolds(Rule38.pred, 0, AtLeast("バチュル", 2), counts);
  }

  /** ミライドンex needs no バチュル, バチュルバレット needs two. */
  lemma MiraidonExcludesJoltikBullet(counts: CountMap)
    ensures Rule37.title == "ミライドンex" && Rule38.title == "バチュルバレット"
    ensures !(37 in Satisfied(Table, counts) && 38 in Satisfied(Table, counts))
  {
    MiraidonConditionExcludesJoltikBullet(counts);
    assert Table[37] == Rule37 && Table[38] == Rule38;
    ExclusiveNeverBoth(Table, counts, 37, 38);
  }

  /** The conditions alone, before they are placed in the table. */
  lemma HoOhConditionExcludesSendOffBullet(counts: CountMap)
    ensures !(Eval(Rule26.pred, counts) && Eval(Rule27.pred, counts))
  {
    ConjunctHolds(Rule26.pred, 1, Exactly("グレンアルマ", 0), counts);
    ConjunctHolds(Rule27.pred, 1, AtLeast("グレンアルマ", 2), counts);
  }

  /** ヒビキのホウオウex needs no グレンアルマ, ひおくりバレット needs two. */
  lemma HoOhExcludesSendOffBullet(counts: CountMap)
    ensures Rule26.title == "ヒビキのホウオウex" && Rule27.title == "ひおくりバレット"
    ensures !(26 in Satisfied(Table, counts) && 27 in Satisfied(Table, counts))
  {
    HoOhConditionExcludesSendOffBullet(counts);
    assert Table[26] == Rule26 && Table[27] == Rule27;
    ExclusiveNeverBoth(Table, counts, 26, 27);
  }

  /** The ユキメノコ & マシマシラ condition asks for no マリィのオーロンゲex. */
  lemma FroslassConditionNeedsNoMarnie(counts: CountMap)
    ensures Eval(Rule43.pred, counts) ==> Lookup(counts, "マリィのオーロンゲex") == 0
  {
    ConjunctHolds(Rule43.pred, 2, Exactly("マリィのオーロンゲex", 0), counts);
  }

  /** ユキメノコ & マシマシラ is never listed once マリィのオーロンゲex counts anything,
      so in particular never beside the マリィのオーロンゲex archetype. */
  lemma FroslassNeedsNoMarnie(counts: CountMap)
    ensures Rule43.title == "ユキメノコ & マシマシラ" && Rule3.title == "マリィのオーロンゲex"
    ensures Lookup(counts, "マリィのオーロンゲex") != 0 ==> 43 !in Satisfied(Table, counts)
    ensures !(43 in Satisfied(Table, counts) && 3 in Satisfied(Table, counts))
  {
    FroslassConditionNeedsNoMarnie(counts);
    assert Table[43] == Rule43 && Table[3] == Rule3;
    var s := Satisfied(Table, counts);
    if 43 in s {
      var k :| 0 <= k < |s| && s[k] == 43;
      assert Eval(Table[s[k]].pred, counts);
    }
    ExclusiveNeverBoth(Table, counts, 43, 3);
  }
}
