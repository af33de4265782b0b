/** The deck list every handler receives, the count aggregation every handler
    performs on it, and the handler boundary (fetch outcome and response). */
module Deck {

  datatype Option<T> = None | Some(value: T)

  /** One entry of the deck list returned by the deck-data service.
      The `detail_url` field is never read by the classifier and is not modelled. */
  datatype Card = Card(name: string, imageUrl: string, count: int)

  /** The `cardlist` map: card name to summed count. */
  type CountMap = map<string, int>

  /** Reading a Go `map[string]int`: a missing key reads as 0. */
  function Lookup(counts: CountMap, name: string): int
  {
    if name in counts then counts[name] else 0
  }

  /** The names that occur in a deck list. */
  function NamesOf(deck: seq<Card>): set<string>
  {
    set i | 0 <= i < |deck| :: deck[i].name
  }

  /** The plain sum-reduce: the sum of `count` over all entries named `name`. */
  function CountOf(deck: seq<Card>, name: string): int
  {
    if deck == [] then 0
    else
      var last := deck[|deck| - 1];
      CountOf(deck[..|deck| - 1], name) + (if last.name == name then last.count else 0)
  }

  /** The count map a deck aggregates to: one key per name in the deck, holding its sum. */
  function CountMapOf(deck: seq<Card>): (m: CountMap)
    ensures m.Keys == NamesOf(deck)
    ensures forall n :: n in m ==> m[n] == CountOf(deck, n)
  {
    map n | n in NamesOf(deck) :: CountOf(deck, n)
  }

  lemma {:induction false} CountOfAbsent(deck: seq<Card>, name: string)
    requires name !in NamesOf(deck)
    ensures CountOf(deck, name) == 0
  {
    if deck != [] {
      var init := deck[..|deck| - 1];
      assert NamesOf(init) <= NamesOf(deck) by {
        forall n | n in NamesOf(init) ensures n in NamesOf(deck) {
          var i :| 0 <= i < |init| && init[i].name == n;
          assert deck[i].name == n;
        }
      }
      assert deck[|deck| - 1].name in NamesOf(deck);
      CountOfAbsent(init, name);
    }
  }

  /** Aggregating two halves separately and adding gives the same count:
      the sum does not depend on where a deck list is split. */
  lemma {:induction false} CountOfAppend(a: seq<Card>, b: seq<Card>, name: string)
    ensures CountOf(a + b, name) == CountOf(a, name) + CountOf(b, name)
  {
    if b == [] {
      assert a + b == a;
    } else {
      var init := b[..|b| - 1];
      assert (a + b)[..|a + b| - 1] == a + init;
      CountOfAppend(a, init, name);
    }
  }

  /** Every predicate reads the aggregated map through `Lookup`: it sees the
      sum of counts for a name in the deck and 0 for a name not in it. */
  lemma LookupCountMapOf(deck: seq<Card>, name: string)
    ensures Lookup(CountMapOf(deck), name) == CountOf(deck, name)
    ensures name !in NamesOf(deck) ==> Lookup(CountMapOf(deck), name) == 0
  {
    if name !in NamesOf(deck) {
      CountOfAbsent(deck, name);
    }
  }

  /** The aggregation loop of every handler: the first entry of a name sets
      its count, a later entry of the same name adds to it. */
  method Aggregate(deck: seq<Card>) returns (cardlist: CountMap)
    ensures cardlist == CountMapOf(deck)
  {
    cardlist := map[];
    for i := 0 to |deck|
      invariant cardlist.Keys == NamesOf(deck[..i])
      invariant forall n :: n in cardlist ==> cardlist[n] == CountOf(deck[..i], n)
    {
      var card := deck[i];
      assert deck[..i + 1][..i] == deck[..i];
      assert NamesOf(deck[..i + 1]) == NamesOf(deck[..i]) + {card.name} by {
        assert deck[..i + 1][i] == card;
        forall n | n in NamesOf(deck[..i]) ensures n in NamesOf(deck[..i + 1]) {
          var k :| 0 <= k < i && deck[..i][k].name == n;
          assert deck[..i + 1][k].name == n;
        }
      }
      if card.name !in cardlist {
        CountOfAbsent(deck[..i], card.name);
        cardlist := cardlist[card.name := card.count];
      } else {
        cardlist := cardlist[card.name := cardlist[card.name] + card.count];
      }
    }
    assert deck[..|deck|] == deck;
  }

  /** What the deck-data fetch and JSON decoding yield: a deck list, or a failure
      (transport error, non-200 status, unreadable body or malformed JSON). */
  datatype Fetch = Fetched(deck: seq<Card>) | FetchFailed

  /** What a handler passes to `ctx.JSON`: a body with a status, an error status, or nothing at all. */
  datatype Response<T> = Json(status: int, body: T) | ErrorStatus(status: int) | NoResponse

  const StatusOK := 200
  const StatusNoContent := 204
  const StatusInternalServerError := 500
}
