/** `score_dimension`: one AI-anxiety dimension of any number of Likert
    items, summed and mapped to a 0..10 intensity (`DimensionResult`). */
module AiAnxiety {

  import opened Wrappers
  import opened Scale
  import JobAnxiety

  datatype DimensionResult = DimensionResult(total: int, intensity: int, count: nat)

  const EmptyError := "Dimension items must not be empty."
  const RangeError := "Each dimension item must be between 1 and 5."

  /** `max(0, min(10, round((total - n) / (4n) * 10)))` on exact fractions */
  function DimensionIntensity(total: int, n: nat): int
    requires n > 0
  {
    Clamp(0, 10, RoundHalfEven(10 * (total - n), 4 * n))
  }

  /** Over the possible totals the clamp never bites. */
  lemma DimensionIntensityOfTotal(total: int, n: nat)
    requires n > 0 && n <= total <= 5 * n
    ensures 0 <= RoundHalfEven(10 * (total - n), 4 * n) <= 10
    ensures RoundsHalfEven(10 * (total - n), 4 * n, DimensionIntensity(total, n))
  {
    RoundHalfEvenUnique(0, 4 * n, 0);
    RoundHalfEvenUnique(40 * n, 4 * n, 10);
    RoundHalfEvenMonotone(0, 10 * (total - n), 4 * n);
    RoundHalfEvenMonotone(10 * (total - n), 40 * n, 4 * n);
  }

  /** `score_dimension(items)`; `Err` carries the `ValueError` message. */
  function ScoreDimension(items: seq<int>): (r: Result<DimensionResult, string>)
    ensures items == [] ==> r == Err(EmptyError)
    ensures items != [] && !AllLikert(items) ==> r == Err(RangeError)
    ensures r.Ok? <==> items != [] && AllLikert(items)
    ensures r.Ok? ==> r.value.count == |items| && r.value.total == Sum(items)
                      && |items| <= r.value.total <= 5 * |items|
    ensures r.Ok? ==> 0 <= r.value.intensity <= 10
                      && RoundsHalfEven(10 * (r.value.total - |items|), 4 * |items|, r.value.intensity)
  {
    if items == [] then Err(EmptyError)
    else if exists i :: 0 <= i < |items| && !IsLikert(items[i]) then Err(RangeError)
    else
      var n := |items|;
      SumBounds(items);
      var total := Sum(items);
      DimensionIntensityOfTotal(total, n);
      Ok(DimensionResult(total, DimensionIntensity(total, n), n))
  }

  /** All answers 1 give intensity 0; all answers 5 give intensity 10. */
  lemma ExtremeIntensities(items: seq<int>, v: int)
    requires items != [] && (v == 1 || v == 5)
    requires forall i :: 0 <= i < |items| ==> items[i] == v
    ensures ScoreDimension(items).Ok?
    ensures v == 1 ==> ScoreDimension(items).value.intensity == 0
    ensures v == 5 ==> ScoreDimension(items).value.intensity == 10
  {
    var n := |items|;
    SumConstant(items, v);
    RoundHalfEvenUnique(0, 4 * n, 0);
    RoundHalfEvenUnique(40 * n, 4 * n, 10);
    assert 10 * (n * 5 - n) == 40 * n;
  }

  /** On four items a dimension scores exactly like the job-anxiety scale. */
  lemma FourItemsAgreeWithJobAnxiety(items: seq<int>)
    requires |items| == 4 && AllLikert(items)
    ensures ScoreDimension(items).Ok? && JobAnxiety.ScoreJobAnxiety(items).Ok?
    ensures ScoreDimension(items).value.total == JobAnxiety.ScoreJobAnxiety(items).value.total
    ensures ScoreDimension(items).value.intensity == JobAnxiety.ScoreJobAnxiety(items).value.intensity
  {
    var total := Sum(items);
    SumBounds(items);
    JobAnxiety.IntensityOfTotal(total);
    RoundHalfEvenScale(5 * (total - 4), 8, 2);
  }
}
