/** `score_job_anxiety`: four Likert items summed into a total and mapped to
    a 0..10 intensity. */
module JobAnxiety {

  import opened Wrappers
  import opened Scale

  datatype JobAnxietyResult = JobAnxietyResult(total: int, intensity: int)

  const LengthError := "Job anxiety requires exactly 4 items."
  const RangeError := "Each job anxiety item must be between 1 and 5."

  /** `max(0, min(10, round((total - 4) / 16 * 10)))`; the float arithmetic
      is exact here (sixteenths times ten), so an exact fraction rounded half
      to even is what Python computes. */
  function Intensity(total: int): int {
    Clamp(0, 10, RoundHalfEven(10 * (total - 4), 16))
  }

  /** On the possible totals the clamp never bites: the intensity is the
      nearest integer to 5 * (total - 4) / 8, the even one at a tie. */
  lemma IntensityOfTotal(total: int)
    requires 4 <= total <= 20
    ensures 0 <= RoundHalfEven(5 * (total - 4), 8) <= 10
    ensures Intensity(total) == RoundHalfEven(5 * (total - 4), 8)
    ensures RoundsHalfEven(5 * (total - 4), 8, Intensity(total))
  {
    RoundHalfEvenScale(5 * (total - 4), 8, 2);
    RoundHalfEvenMonotone(0, 5 * (total - 4), 8);
    RoundHalfEvenMonotone(5 * (total - 4), 80, 8);
  }

  /** `score_job_anxiety(items)`; `Err` carries the `ValueError` message. */
  function ScoreJobAnxiety(items: seq<int>): (r: Result<JobAnxietyResult, string>)
    ensures |items| != 4 ==> r == Err(LengthError)
    ensures |items| == 4 && !AllLikert(items) ==> r == Err(RangeError)
    ensures r.Ok? <==> |items| == 4 && AllLikert(items)
    ensures r.Ok? ==> r.value.total == Sum(items) && 4 <= r.value.total <= 20
    ensures r.Ok? ==> 0 <= r.value.intensity <= 10
                      && RoundsHalfEven(5 * (r.value.total - 4), 8, r.value.intensity)
  {
    if |items| != 4 then Err(LengthError)
    else if exists i :: 0 <= i < |items| && !IsLikert(items[i]) then Err(RangeError)
    else
      SumBounds(items);
      var total := Sum(items);
      IntensityOfTotal(total);
      Ok(JobAnxietyResult(total, Intensity(total)))
  }

  /** The documented mapping at the quarter points; 8 and 16 are the ties
      2.5 and 7.5, rounded to the even neighbours 2 and 8. */
  lemma WorkedIntensities()
    ensures Intensity(4) == 0 && Intensity(8) == 2 && Intensity(12) == 5
    ensures Intensity(16) == 8 && Intensity(20) == 10
  {
  }

  /** A higher total never gives a lower intensity. */
  lemma IntensityMonotone(t1: int, t2: int)
    requires t1 <= t2
    ensures Intensity(t1) <= Intensity(t2)
  {
    RoundHalfEvenMonotone(10 * (t1 - 4), 10 * (t2 - 4), 16);
  }
}
