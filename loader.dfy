/** The intervention catalog: the key check `load_interventions` applies to
    the parsed library file, and `filter_interventions`. */
module Interventions {

  import opened Wrappers
  import opened PyJson
  import opened Sequences

  /** One intervention card, a JSON object */
  type Card = map<string, Json>

  /** The parsed library; `None` when it has no "interventions" key. */
  datatype Library = Library(interventions: Option<seq<Card>>)

  const MissingKeyError := "Invalid library.json: missing 'interventions'"

  /** The check `load_interventions` applies after parsing */
  function LoadInterventions(data: Library): (r: Result<Library, string>)
    ensures r.Ok? <==> data.interventions.Some?
    ensures r.Ok? ==> r.value == data
    ensures r.Err? ==> r.error == MissingKeyError
  {
    if data.interventions.None? then Err(MissingKeyError) else Ok(data)
  }

  /** `data.get("interventions", [])` */
  function AllCards(data: Library): seq<Card> {
    match data.interventions
    case Some(cards) => cards
    case None => []
  }

  /** `x.get("driver") == driver and x.get("neuroticism_band") == band` */
  predicate Matches(card: Card, driver: string, band: string) {
    Get(card, "driver") == Some(JStr(driver)) && Get(card, "neuroticism_band") == Some(JStr(band))
  }

  /** The cards that match, in catalog order */
  function Matching(cards: seq<Card>, driver: string, band: string): (r: seq<Card>)
    ensures |r| <= |cards|
    ensures forall c :: c in r ==> c in cards && Matches(c, driver, band)
    ensures forall c :: c in cards && Matches(c, driver, band) ==> c in r
  {
    if cards == [] then []
    else
      var rest := Matching(cards[1..], driver, band);
      if Matches(cards[0], driver, band) then [cards[0]] + rest else rest
  }

  /** `filter_interventions(data, driver, band)` */
  function FilterInterventions(data: Library, driver: string, band: string): (r: seq<Card>)
    ensures data.interventions.None? ==> r == []
    ensures forall c :: c in r ==> Matches(c, driver, band)
  {
    Matching(AllCards(data), driver, band)
  }

  /** Each matching card is kept as many times as the catalog holds it. */
  lemma {:induction false} MatchingCounts(cards: seq<Card>, driver: string, band: string)
    ensures forall c :: multiset(Matching(cards, driver, band))[c]
                        == if Matches(c, driver, band) then multiset(cards)[c] else 0
    decreases |cards|
  {
    if cards != [] {
      MatchingCounts(cards[1..], driver, band);
      assert cards == [cards[0]] + cards[1..];
    }
  }

  /** Filtering keeps the catalog order: the result is a subsequence. */
  lemma {:induction false} MatchingIsSubsequence(cards: seq<Card>, driver: string, band: string)
    ensures IsSubsequence(Matching(cards, driver, band), cards)
    decreases |cards|
  {
    if cards != [] {
      MatchingIsSubsequence(cards[1..], driver, band);
      var rest := Matching(cards[1..], driver, band);
      if Matches(cards[0], driver, band) {
        assert ([cards[0]] + rest)[1..] == rest;
      }
    }
  }

  /** Filtering what a filter returned changes nothing. */
  lemma {:induction false} MatchingIdempotent(cards: seq<Card>, driver: string, band: string)
    ensures Matching(Matching(cards, driver, band), driver, band) == Matching(cards, driver, band)
    decreases |cards|
  {
    if cards != [] {
      MatchingIdempotent(cards[1..], driver, band);
      var rest := Matching(cards[1..], driver, band);
      if Matches(cards[0], driver, band) {
        assert ([cards[0]] + rest)[1..] == rest;
      }
    }
  }

  /** Filtering distributes over concatenated catalogs. */
  lemma {:induction false} MatchingAppend(a: seq<Card>, b: seq<Card>, driver: string, band: string)
    ensures Matching(a + b, driver, band) == Matching(a, driver, band) + Matching(b, driver, band)
    decreases |a|
  {
    if a != [] {
      assert (a + b)[0] == a[0];
      assert (a + b)[1..] == a[1..] + b;
      MatchingAppend(a[1..], b, driver, band);
      var ra := Matching(a[1..], driver, band);
      var rb := Matching(b, driver, band);
      assert [a[0]] + (ra + rb) == [a[0]] + ra + rb;
    } else {
      assert a + b == b;
    }
  }
}
