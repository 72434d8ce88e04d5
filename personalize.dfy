/** `route`: pick at most two intervention cards for a worry driver and a
    neuroticism band, with two fallbacks. */
module Personalize {

  import opened Wrappers
  import opened Drivers
  import opened Interventions
  import Neuroticism

  /** `pick_two_actions`: the first two candidates, or all of fewer */
  function PickTwo(candidates: seq<Card>): (r: seq<Card>)
    ensures |r| == if |candidates| < 2 then |candidates| else 2
    ensures r == candidates[..|r|]
  {
    if |candidates| >= 2 then candidates[..2] else candidates
  }

  /** `band in ("low", "mid", "high")` */
  predicate IsBandName(band: string) {
    band == "low" || band == "mid" || band == "high"
  }

  /** The candidates before picking: exact matches, else the mid band of the
      same driver (unless the band already was mid), else the whole catalog */
  function Candidates(driver: string, band: string, data: Library): seq<Card> {
    var exact := FilterInterventions(data, driver, band);
    var fallback := if exact == [] && band != "mid" then FilterInterventions(data, driver, "mid") else exact;
    if fallback == [] then AllCards(data) else fallback
  }

  /** `route(driver, band, library_data)`; `Err` carries the `ValueError`
      message. */
  function Route(driver: string, band: string, data: Library): (r: Result<seq<Card>, string>)
    ensures Parse(driver).None? ==> r == Err("Invalid driver: " + driver)
    ensures Parse(driver).Some? && !IsBandName(band) ==> r == Err("Invalid band: " + band)
    ensures r.Ok? <==> Parse(driver).Some? && IsBandName(band)
    ensures r.Ok? ==> |r.value| <= 2
    ensures r.Ok? ==> (r.value == [] <==> AllCards(data) == [])
  {
    if Parse(driver).None? then Err("Invalid driver: " + driver)
    else if !IsBandName(band) then Err("Invalid band: " + band)
    else
      var candidates := Candidates(driver, band, data);
      assert candidates == [] ==> AllCards(data) == [];
      assert AllCards(data) == [] ==> candidates == [] by {
        if AllCards(data) == [] {
          assert FilterInterventions(data, driver, band) == [];
          assert FilterInterventions(data, driver, "mid") == [];
        }
      }
      Ok(PickTwo(candidates))
  }

  /** With exact matches, the first (at most two) of them are returned. */
  lemma RouteExact(driver: string, band: string, data: Library)
    requires Parse(driver).Some? && IsBandName(band)
    requires FilterInterventions(data, driver, band) != []
    ensures Route(driver, band, data) == Ok(PickTwo(FilterInterventions(data, driver, band)))
    ensures forall c :: c in Route(driver, band, data).value ==> Matches(c, driver, band)
  {
  }

  /** Without exact matches outside the mid band, the same driver's mid-band
      cards are tried next. */
  lemma RouteMidFallback(driver: string, band: string, data: Library)
    requires Parse(driver).Some? && IsBandName(band) && band != "mid"
    requires FilterInterventions(data, driver, band) == []
    requires FilterInterventions(data, driver, "mid") != []
    ensures Route(driver, band, data) == Ok(PickTwo(FilterInterventions(data, driver, "mid")))
    ensures forall c :: c in Route(driver, band, data).value ==> Matches(c, driver, "mid")
  {
  }

  /** When neither tier has a card, the head of the whole catalog is used;
      for the mid band the second tier is the first one and is skipped. */
  lemma RouteAnyFallback(driver: string, band: string, data: Library)
    requires Parse(driver).Some? && IsBandName(band)
    requires FilterInterventions(data, driver, band) == []
    requires band == "mid" || FilterInterventions(data, driver, "mid") == []
    ensures Route(driver, band, data) == Ok(PickTwo(AllCards(data)))
  {
  }

  /** A non-empty catalog always yields one or two cards. */
  lemma RouteNonEmpty(driver: string, band: string, data: Library)
    requires Parse(driver).Some? && IsBandName(band) && AllCards(data) != []
    ensures Route(driver, band, data).Ok?
    ensures 1 <= |Route(driver, band, data).value| <= 2
  {
  }

  /** A driver and a band produced by the model and the scorer are always
      accepted by the router. */
  lemma RouteAcceptsScoredInputs(d: Driver, b: Neuroticism.Band, data: Library)
    ensures Route(Name(d), Neuroticism.BandName(b), data).Ok?
  {
    ParseName(d);
  }
}
