/** `score_neuroticism`: six Likert items summed into a total and a band. */
module Neuroticism {

  import opened Wrappers
  import opened Scale

  datatype Band = Low | Mid | High

  /** The band's name on the wire ("low", "mid", "high") */
  function BandName(b: Band): string {
    match b
    case Low => "low"
    case Mid => "mid"
    case High => "high"
  }

  /** Position of a band in the order low < mid < high */
  function Rank(b: Band): nat {
    match b
    case Low => 0
    case Mid => 1
    case High => 2
  }

  datatype NeuroticismResult = NeuroticismResult(total: int, band: Band)

  const LengthError := "Neuroticism requires exactly 6 items."
  const RangeError := "Each neuroticism item must be between 1 and 5."

  /** The threshold chain: up to 14 is low, up to 22 is mid, above is high. */
  function BandOf(total: int): (b: Band)
    ensures b == Low <==> total <= 14
    ensures b == Mid <==> 15 <= total <= 22
    ensures b == High <==> 23 <= total
  {
    if total <= 14 then Low
    else if total <= 22 then Mid
    else High
  }

  /** `score_neuroticism(items)`; `Err` carries the `ValueError` message. */
  function ScoreNeuroticism(items: seq<int>): (r: Result<NeuroticismResult, string>)
    ensures |items| != 6 ==> r == Err(LengthError)
    ensures |items| == 6 && !AllLikert(items) ==> r == Err(RangeError)
    ensures r.Ok? <==> |items| == 6 && AllLikert(items)
    ensures r.Ok? ==> r.value.total == Sum(items) && 6 <= r.value.total <= 30
    ensures r.Ok? ==> r.value.band == BandOf(r.value.total)
  {
    if |items| != 6 then Err(LengthError)
    else if exists i :: 0 <= i < |items| && !IsLikert(items[i]) then Err(RangeError)
    else
      SumBounds(items);
      var total := Sum(items);
      Ok(NeuroticismResult(total, BandOf(total)))
  }

  /** A higher total never gives a lower band. */
  lemma BandMonotone(t1: int, t2: int)
    requires t1 <= t2
    ensures Rank(BandOf(t1)) <= Rank(BandOf(t2))
  {
  }

  /** Six answers of 1 are "low" with total 6; six answers of 5 are "high"
      with total 30. */
  lemma BandExtremes()
    ensures ScoreNeuroticism([1, 1, 1, 1, 1, 1]) == Ok(NeuroticismResult(6, Low))
    ensures ScoreNeuroticism([5, 5, 5, 5, 5, 5]) == Ok(NeuroticismResult(30, High))
  {
    SumConstant([1, 1, 1, 1, 1, 1], 1);
    SumConstant([5, 5, 5, 5, 5, 5], 5);
  }
}
