/** The rule engine shared by the ALL-mode handlers: count predicates, rules,
    and the evaluators that keep the matching rules in declaration order. */
module Rules {
  import opened Deck
  import opened Projection

  /** A condition of the rule cascades: comparisons of `cardlist[name]` with a
      constant, joined with `&&`, `||` and `!`. */
  datatype Pred =
    | AtLeast(name: string, n: int)   // cardlist[name] >= n
    | Exactly(name: string, n: int)   // cardlist[name] == n
    | AtMost(name: string, n: int)    // cardlist[name] <= n
    | And(left: Pred, right: Pred)
    | Or(left: Pred, right: Pred)
    | Not(operand: Pred)

  function Eval(p: Pred, counts: CountMap): bool
  {
    match p
    case AtLeast(name, n) => Lookup(counts, name) >= n
    case Exactly(name, n) => Lookup(counts, name) == n
    case AtMost(name, n) => Lookup(counts, name) <= n
    case And(l, r) => Eval(l, counts) && Eval(r, counts)
    case Or(l, r) => Eval(l, counts) || Eval(r, counts)
    case Not(q) => !Eval(q, counts)
  }

  /** The card names a predicate compares. */
  function Mentions(p: Pred): set<string>
  {
    match p
    case AtLeast(name, _) => {name}
    case Exactly(name, _) => {name}
    case AtMost(name, _) => {name}
    case And(l, r) => Mentions(l) + Mentions(r)
    case Or(l, r) => Mentions(l) + Mentions(r)
    case Not(q) => Mentions(q)
  }

  /** A predicate depends on nothing but the counts of the names it mentions. */
  lemma {:induction false} EvalReadsOnlyMentioned(p: Pred, c1: CountMap, c2: CountMap)
    requires forall n :: n in Mentions(p) ==> Lookup(c1, n) == Lookup(c2, n)
    ensures Eval(p, c1) == Eval(p, c2)
  {
    match p
    case AtLeast(_, _) =>
    case Exactly(_, _) =>
    case AtMost(_, _) =>
    case And(l, r) =>
      EvalReadsOnlyMentioned(l, c1, c2);
      EvalReadsOnlyMentioned(r, c1, c2);
    case Or(l, r) =>
      EvalReadsOnlyMentioned(l, c1, c2);
      EvalReadsOnlyMentioned(r, c1, c2);
    case Not(q) =>
      EvalReadsOnlyMentioned(q, c1, c2);
  }

  /** The operands of a chain of `&&`, left to right. */
  function Conjuncts(p: Pred): (r: seq<Pred>)
    ensures |r| >= 1
  {
    match p
    case And(l, r) => Conjuncts(l) + Conjuncts(r)
    case _ => [p]
  }

  /** A predicate that holds makes every operand of its `&&` chain hold:
      `q` is the operand at position `k`. */
  lemma {:induction false} ConjunctHolds(p: Pred, k: nat, q: Pred, counts: CountMap)
    requires k < |Conjuncts(p)| && Conjuncts(p)[k] == q
    ensures Eval(p, counts) ==> Eval(q, counts)
  {
    match p
    case And(l, r) =>
      if k < |Conjuncts(l)| {
        ConjunctHolds(l, k, q, counts);
      } else {
        ConjunctHolds(r, k - |Conjuncts(l)|, q, counts);
      }
    case _ =>
  }

  /** One `if` of a cascade: its condition, and the title and name list it passes to `analyze`. */
  datatype Rule = Rule(pred: Pred, title: string, names: seq<string>)

  /** What a matching rule appends: `analyze(title, deck, names)`. */
  function Outcome(rule: Rule, deck: seq<Card>): DeckType
  {
    DeckType(rule.title, Project(rule.names, deck))
  }

  /** ALL mode: the outcome of every rule whose predicate holds, in table order. */
  function Matches(rules: seq<Rule>, counts: CountMap, deck: seq<Card>): seq<DeckType>
  {
    if rules == [] then []
    else
      var last := rules[|rules| - 1];
      Matches(rules[..|rules| - 1], counts, deck) +
      (if Eval(last.pred, counts) then [Outcome(last, deck)] else [])
  }

  /** The indices of the rules whose predicate holds, ascending. */
  function Satisfied(rules: seq<Rule>, counts: CountMap): (s: seq<nat>)
    ensures forall k :: 0 <= k < |s| ==> s[k] < |rules| && Eval(rules[s[k]].pred, counts)
    ensures forall k, l :: 0 <= k < l < |s| ==> s[k] < s[l]
    ensures forall i :: 0 <= i < |rules| && Eval(rules[i].pred, counts) ==> i in s
  {
    if rules == [] then []
    else
      var init := rules[..|rules| - 1];
      var s := Satisfied(init, counts);
      assert forall k :: 0 <= k < |s| ==> rules[s[k]] == init[s[k]];
      s + (if Eval(rules[|rules| - 1].pred, counts) then [|rules| - 1] else [])
  }

  /** `deckTypes` holds one outcome per satisfied rule, in declaration order. */
  predicate InDeclarationOrder(rules: seq<Rule>, counts: CountMap, deck: seq<Card>, deckTypes: seq<DeckType>)
  {
    var s := Satisfied(rules, counts);
    |deckTypes| == |s| &&
    forall k :: 0 <= k < |s| ==> deckTypes[k] == Outcome(rules[s[k]], deck)
  }

  /** ALL mode lists one outcome per satisfied rule, in declaration order. */
  lemma {:induction false} MatchesInDeclarationOrder(rules: seq<Rule>, counts: CountMap, deck: seq<Card>)
    ensures InDeclarationOrder(rules, counts, deck, Matches(rules, counts, deck))
  {
    if rules != [] {
      var init := rules[..|rules| - 1];
      var last := rules[|rules| - 1];
      MatchesInDeclarationOrder(init, counts, deck);
      var m, s := Matches(init, counts, deck), Satisfied(init, counts);
      var tail := if Eval(last.pred, counts) then [Outcome(last, deck)] else [];
      var tailIndex := if Eval(last.pred, counts) then [|rules| - 1] else [];
      assert Matches(rules, counts, deck) == m + tail;
      assert Satisfied(rules, counts) == s + tailIndex;
      forall k | 0 <= k < |s + tailIndex|
        ensures (m + tail)[k] == Outcome(rules[(s + tailIndex)[k]], deck)
      {
        if k < |s| {
          assert rules[s[k]] == init[s[k]];
        }
      }
    }
  }

  /** The ALL-mode list is empty exactly when no rule's predicate holds. */
  lemma MatchesEmptyIff(rules: seq<Rule>, counts: CountMap, deck: seq<Card>)
    ensures Matches(rules, counts, deck) == [] <==>
            forall i :: 0 <= i < |rules| ==> !Eval(rules[i].pred, counts)
  {
    MatchesInDeclarationOrder(rules, counts, deck);
    var s := Satisfied(rules, counts);
    if s != [] {
      assert Eval(rules[s[0]].pred, counts);
    }
  }

  /** Two rules whose predicates exclude each other are never both in the ALL-mode list. */
  lemma ExclusiveNeverBoth(rules: seq<Rule>, counts: CountMap, i: nat, j: nat)
    requires i < |rules| && j < |rules|
    requires !(Eval(rules[i].pred, counts) && Eval(rules[j].pred, counts))
    ensures !(i in Satisfied(rules, counts) && j in Satisfied(rules, counts))
  {
  }

  /** FIRST mode: the outcome of the first rule whose predicate holds, or none. */
  function FirstMatch(rules: seq<Rule>, counts: CountMap, deck: seq<Card>): Option<DeckType>
  {
    if rules == [] then None
    else if Eval(rules[0].pred, counts) then Some(Outcome(rules[0], deck))
    else FirstMatch(rules[1..], counts, deck)
  }

  lemma {:induction false} MatchesCons(rule: Rule, rest: seq<Rule>, counts: CountMap, deck: seq<Card>)
    ensures Matches([rule] + rest, counts, deck) ==
            (if Eval(rule.pred, counts) then [Outcome(rule, deck)] else []) + Matches(rest, counts, deck)
  {
    if rest != [] {
      var init := rest[..|rest| - 1];
      assert ([rule] + rest)[..|[rule] + rest| - 1] == [rule] + init;
      MatchesCons(rule, init, counts, deck);
    }
  }

  /** FIRST mode yields exactly the head of the ALL-mode list. */
  lemma {:induction false} FirstMatchIsFirstOfAll(rules: seq<Rule>, counts: CountMap, deck: seq<Card>)
    ensures FirstMatch(rules, counts, deck) ==
            if Matches(rules, counts, deck) == [] then None else Some(Matches(rules, counts, deck)[0])
  {
    if rules != [] {
      assert rules == [rules[0]] + rules[1..];
      MatchesCons(rules[0], rules[1..], counts, deck);
      FirstMatchIsFirstOfAll(rules[1..], counts, deck);
    }
  }

  /** The cascade of `if`s of an ALL-mode handler: each rule whose predicate
      holds appends its `analyze` result to `deckTypes`. */
  method EvaluateAll(rules: seq<Rule>, cardlist: CountMap, deck: seq<Card>) returns (deckTypes: seq<DeckType>)
    ensures deckTypes == Matches(rules, cardlist, deck)
  {
    deckTypes := [];
    for i := 0 to |rules|
      invariant deckTypes == Matches(rules[..i], cardlist, deck)
    {
      assert rules[..i + 1][..i] == rules[..i];
      var rule := rules[i];
      if Eval(rule.pred, cardlist) {
        var deckType := Analyze(rule.title, deck, rule.names);
        deckTypes := deckTypes + [deckType];
      }
    }
    assert rules[..|rules|] == rules;
  }
}
