/** `GetM1` (internal/handlers/m1.go): aggregate the deck, run the M1 cascade in
    ALL mode, reply 204 when nothing matched and 200 otherwise. */
module M1 {
  import opened Deck
  import opened Projection
  import opened Rules
  import opened M1Table

  /** The handler after the fetch: 500 when the deck could not be obtained,
      otherwise the ALL-mode list with the status chosen by its emptiness. */
  method GetM1(fetch: Fetch) returns (response: Response<seq<DeckType>>)
    ensures fetch.FetchFailed? ==> response == ErrorStatus(StatusInternalServerError)
    ensures fetch.Fetched? ==>
      var deckTypes := Matches(Table, CountMapOf(fetch.deck), fetch.deck);
      response == Json(if deckTypes == [] then StatusNoContent else StatusOK, deckTypes)
    ensures fetch.Fetched? ==>
      InDeclarationOrder(Table, CountMapOf(fetch.deck), fetch.deck, response.body)
    ensures fetch.Fetched? ==>
      (response.status == StatusNoContent <==>
       forall i :: 0 <= i < |Table| ==> !Eval(Table[i].pred, CountMapOf(fetch.deck)))
  {
    if fetch.FetchFailed? {
      return ErrorStatus(StatusInternalServerError);
    }
    var deck := fetch.deck;
    var cardlist := Aggregate(deck);
    var deckTypes := EvaluateAll(Table, cardlist, deck);
    MatchesInDeclarationOrder(Table, cardlist, deck);
    MatchesEmptyIff(Table, cardlist, deck);
    if |deckTypes| == 0 {
      response := Json(StatusNoContent, deckTypes);
    } else {
      response := Json(StatusOK, deckTypes);
    }
  }

  /** The conditions alone, before they are placed in the table. */
  lemma BoosterConditionExcludesEeveeBullet(counts: CountMap)
    ensures !(Eval(Rule23.pred, counts) && Eval(Rule24.pred, counts))
  {
    var others := Or(Or(Or(Or(Or(Or(AtLeast("シャワーズex", 1), AtLeast("サンダースex", 1)), AtLeast("エーフィex", 1)),
      AtLeast("ブラッキーex", 1)), AtLeast("リーフィアex", 1)), AtLeast("グレイシアex", 1)), AtLeast("ニンフィアex", 1));
    ConjunctHolds(Rule23.pred, 1, Not(others), counts);
    ConjunctHolds(Rule24.pred, 2, others, counts);
  }

  /** ブースターex needs no other eeveelution ex, ブイズバレット needs one. */
  lemma BoosterExcludesEeveeBullet(counts: CountMap)
    ensures Rule23.title == "ブースターex" && Rule24.title == "ブイズバレット"
    ensures !(23 in Satisfied(Table, counts) && 24 in Satisfied(Table, counts))
  {
    BoosterConditionExcludesEeveeBullet(counts);
    assert Table[23] == Rule23 && Table[24] == Rule24;
    ExclusiveNeverBoth(Table, counts, 23, 24);
  }

  /** The conditions alone, before they are placed in the table. */
  lemma PoisonGimmickConditionExcludesPoisonRoaringMoon(counts: CountMap)
    ensures !(Eval(Rule94.pred, counts) && Eval(Rule44.pred, counts))
  {
    ConjunctHolds(Rule94.pred, 0, Exactly("トドロクツキex", 0), counts);
    ConjunctHolds(Rule94.pred, 1, Exactly("トドロクツキ", 0), counts);
    ConjunctHolds(Rule44.pred, 0, Or(AtLeast("トドロクツキex", 2), AtLeast("トドロクツキ", 2)), counts);
  }

  /** 毒ギミック needs トドロクツキex and トドロクツキ both absent; 毒トドロクツキ needs one of them twice. */
  lemma PoisonGimmickExcludesPoisonRoaringMoon(counts: CountMap)
    ensures Rule94.title == "毒ギミック" && Rule44.title == "毒トドロクツキ"
    ensures !(94 in Satisfied(Table, counts) && 44 in Satisfied(Table, counts))
  {
    PoisonGimmickConditionExcludesPoisonRoaringMoon(counts);
    assert Table[94] == Rule94 && Table[44] == Rule44;
    ExclusiveNeverBoth(Table, counts, 94, 44);
  }

  /** The conditions alone, before they are placed in the table. */
  lemma TerastalBulletConditionExcludesRagingBolt(counts: CountMap)
    ensures !(Eval(Rule4.pred, counts) && Eval(Rule83.pred, counts))
  {
    ConjunctHolds(Rule4.pred, 0, AtLeast("タケルライコex", 2), counts);
    ConjunctHolds(Rule83.pred, 0, Exactly("タケルライコex", 0), counts);
  }

  /** テラスタルバレット needs タケルライコex absent; the タケルライコex rule needs two. */
  lemma TerastalBulletExcludesRagingBolt(counts: CountMap)
    ensures Rule4.title == "タケルライコex" && Rule83.title == "テラスタルバレット"
    ensures !(4 in Satisfied(Table, counts) && 83 in Satisfied(Table, counts))
  {
    TerastalBulletConditionExcludesRagingBolt(counts);
    assert Table[4] == Rule4 && Table[83] == Rule83;
    ExclusiveNeverBoth(Table, counts, 4, 83);
  }

  /** The conditions alone, before they are placed in the table. */
  lemma OgerponBulletConditionExcludesRagingBolt(counts: CountMap)
    ensures !(Eval(Rule4.pred, counts) && Eval(Rule84.pred, counts))
  {
    ConjunctHolds(Rule4.pred, 0, AtLeast("タケルライコex", 2), counts);
    ConjunctHolds(Rule84.pred, 0, Exactly("タケルライコex", 0), counts);
  }

  /** オーガポンバレット needs タケルライコex absent as well. */
  lemma OgerponBulletExcludesRagingBolt(counts: CountMap)
    ensures Rule4.title == "タケルライコex" && Rule84.title == "オーガポンバレット"
    ensures !(4 in Satisfied(Table, counts) && 84 in Satisfied(Table, counts))
  {
    OgerponBulletConditionExcludesRagingBolt(counts);
    assert Table[4] == Rule4 && Table[84] == Rule84;
    ExclusiveNeverBoth(Table, counts, 4, 84);
  }

  /** The conditions alone, before they are placed in the table. */
  lemma MiraidonConditionExcludesJoltikBullet(counts: CountMap)
    ensures !(Eval(Rule80.pred, counts) && Eval(Rule82.pred, counts))
  {
    ConjunctHolds(Rule80.pred, 1, Exactly("バチュル", 0), counts);
    ConjunctHolds(Rule82.pred, 0, AtLeast("バチュル", 2), counts);
  }

  /** ミライドンex needs no バチュル, バチュルバレット needs two. */
  lemma MiraidonExcludesJoltikBullet(counts: CountMap)
    ensures Rule80.title == "ミライドンex" && Rule82.title == "バチュルバレット"
    ensures !(80 in Satisfied(Table, counts) && 82 in Satisfied(Table, counts))
  {
    MiraidonConditionExcludesJoltikBullet(counts);
    assert Table[80] == Rule80 && Table[82] == Rule82;
    ExclusiveNeverBoth(Table, counts, 80, 82);
  }

  /** The 毒ギミック name list holds オンバーンex twice, so a deck holding it gets
      two オンバーンex entries in that archetype's cards. */
  lemma PoisonGimmickShowsNoivernTwice(deck: seq<Card>)
    requires "オンバーンex" in NamesOf(deck)
    ensures Rule94.title == "毒ギミック"
    ensures Occurrences(Names(Outcome(Rule94, deck).mainCards), "オンバーンex") == 2
  {
    var names := Rule94.names;
    assert names == ["オンバーンex", "メガラティアスex", "モモワロウ", "アラブルタケ", "オンバーンex", "危険な密林"];
    var noivern := "オンバーンex";
    assert Occurrences(names, noivern) == 2 by {
      var seen := names[..4];
      assert names[..5] == seen + [noivern] && names == names[..5] + ["危険な密林"];
      assert seen == [noivern] + ["メガラティアスex", "モモワロウ", "アラブルタケ"];
      OccurrencesAppend(seen + [noivern], ["危険な密林"], noivern);
      OccurrencesAppend(seen, [noivern], noivern);
      OccurrencesAppend([noivern], ["メガラティアスex", "モモワロウ", "アラブルタケ"], noivern);
    }
    ProjectOccurrences(names, deck, "オンバーンex");
  }
}
