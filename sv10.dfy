/** `GetSV10` (internal/handlers/sv10.go): aggregate the deck, run the SV10
    cascade in ALL mode, and reply 200 whatever the list holds. */
module SV10 {
  import opened Deck
  import opened Projection
  import opened Rules
  import opened SV10Table

  /** The handler after the fetch: 500 when the deck could not be obtained,
      otherwise the ALL-mode list with status 200, empty or not. */
  method GetSV10(fetch: Fetch) returns (response: Response<seq<DeckType>>)
    ensures fetch.FetchFailed? ==> response == ErrorStatus(StatusInternalServerError)
    ensures fetch.Fetched? ==>
      response == Json(StatusOK, Matches(Table, CountMapOf(fetch.deck), fetch.deck))
    ensures fetch.Fetched? ==>
      InDeclarationOrder(Table, CountMapOf(fetch.deck), fetch.deck, response.body)
  {
    if fetch.FetchFailed? {
      return ErrorStatus(StatusInternalServerError);
    }
    var deck := fetch.deck;
    var cardlist := Aggregate(deck);
    var deckTypes := EvaluateAll(Table, cardlist, deck);
    MatchesInDeclarationOrder(Table, cardlist, deck);
    response := Json(StatusOK, deckTypes);
  }

  /** The first rule matches exactly when タケルライコex and オーガポン みどりのめんex both count at least two. */
  lemma RagingBoltIff(counts: CountMap)
    ensures Rule0.title == "タケルライコex"
    ensures 0 in Satisfied(Table, counts) <==>
            Lookup(counts, "タケルライコex") >= 2 && Lookup(counts, "オーガポン みどりのめんex") >= 2
  {
    var s := Satisfied(Table, counts);
    assert Table[0] == Rule0;
    assert Eval(Table[0].pred, counts) <==>
           Lookup(counts, "タケルライコex") >= 2 && Lookup(counts, "オーガポン みどりのめんex") >= 2;
    if 0 in s {
      var k :| 0 <= k < |s| && s[k] == 0;
      assert Eval(Table[s[k]].pred, counts);
    }
    if Eval(Table[0].pred, counts) {
      assert 0 in s;
    }
  }

  /** The conditions alone, before they are placed in the table. */
  lemma MiraidonConditionExcludesJoltikBullet(counts: CountMap)
    ensures !(Eval(Rule73.pred, counts) && Eval(Rule74.pred, counts))
  {
    ConjunctHolds(Rule73.pred, 1, Exactly("バチュル", 0), counts);
    ConjunctHolds(Rule74.pred, 0, AtLeast("バチュル", 2), counts);
  }

  /** ミライドンex needs no バチュル, バチュルバレット needs two. */
  lemma MiraidonExcludesJoltikBullet(counts: CountMap)
    ensures Rule73.title == "ミライドンex" && Rule74.title == "バチュルバレット"
    ensures !(73 in Satisfied(Table, counts) && 74 in Satisfied(Table, counts))
  {
    MiraidonConditionExcludesJoltikBullet(counts);
    assert Table[73] == Rule73 && Table[74] == Rule74;
    ExclusiveNeverBoth(Table, counts, 73, 74);
  }

  /** The conditions alone, before they are placed in the table. */
  lemma HoOhConditionExcludesSendOffBullet(counts: CountMap)
    ensures !(Eval(Rule41.pred, counts) && Eval(Rule42.pred, counts))
  {
    ConjunctHolds(Rule41.pred, 1, Exactly("グレンアルマ", 0), counts);
    ConjunctHolds(Rule42.pred, 1, AtLeast("グレンアルマ", 2), counts);
  }

  /** ヒビキのホウオウex needs no グレンアルマ, ひおくりバレット needs two. */
  lemma HoOhExcludesSendOffBullet(counts: CountMap)
    ensures Rule41.title == "ヒビキのホウオウex" && Rule42.title == "ひおくりバレット"
    ensures !(41 in Satisfied(Table, counts) && 42 in Satisfied(Table, counts))
  {
    HoOhConditionExcludesSendOffBullet(counts);
    assert Table[41] == Rule41 && Table[42] == Rule42;
    ExclusiveNeverBoth(Table, counts, 41, 42);
  }

  /** The conditions alone, before they are placed in the table. */
  lemma FroslassConditionExcludesMarnie(counts: CountMap)
    ensures !(Eval(Rule80.pred, counts) && Eval(Rule3.pred, counts))
  {
    ConjunctHolds(Rule80.pred, 2, Exactly("マリィのオーロンゲex", 0), counts);
  }

  /** ユキメノコ & マシマシラ needs no マリィのオーロンゲex, the マリィのオーロンゲex rule needs two. */
  lemma FroslassExcludesMarnie(counts: CountMap)
    ensures Rule80.title == "ユキメノコ & マシマシラ" && Rule3.title == "マリィのオーロンゲex"
    ensures !(80 in Satisfied(Table, counts) && 3 in Satisfied(Table, counts))
  {
    FroslassConditionExcludesMarnie(counts);
    assert Table[80] == Rule80 && Table[3] == Rule3;
    ExclusiveNeverBoth(Table, counts, 80, 3);
  }

  /** A count map of a deck that plays four タケルライコex-line cards and the テラスタル cards. */
  const RagingBoltTerastalCounts: CountMap :=
    map["タケルライコex" := 2, "オーガポン みどりのめんex" := 2, "テラパゴスex" := 1, "ゼロの大空洞" := 2]

  /** The two conditions hold together on that count map. */
  lemma TerastalConditionMayJoinRagingBolt()
    ensures Eval(Rule0.pred, RagingBoltTerastalCounts) && Eval(Rule75.pred, RagingBoltTerastalCounts)
  {
    ConjunctHolds(Rule0.pred, 0, AtLeast("タケルライコex", 2), RagingBoltTerastalCounts);
  }

  /** Unlike its M1 counterpart, the SV10 テラスタルバレット rule does not ask for
      タケルライコex to be absent, so both archetypes can be listed for one deck. */
  lemma TerastalBulletMayJoinRagingBolt()
    ensures Rule0.title == "タケルライコex" && Rule75.title == "テラスタルバレット"
    ensures exists counts :: 0 in Satisfied(Table, counts) && 75 in Satisfied(Table, counts)
  {
    var counts := RagingBoltTerastalCounts;
    TerastalConditionMayJoinRagingBolt();
    assert Table[0] == Rule0 && Table[75] == Rule75;
    assert 0 in Satisfied(Table, counts) && 75 in Satisfied(Table, counts);
  }
}
