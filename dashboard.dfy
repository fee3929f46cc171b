/** The decision logic of the dashboard view: the unit-wide risk level over the forecast,
    the per-equipment risk flag, and the colour of an ADS-B track. */
module Dashboard {
  import opened Common
  import opened Profile

  /** One hour of the external forecast; `time` is an "HH:00" label. */
  datatype ForecastPoint = ForecastPoint(time: string, predictedError: real, kpIndex: real)

  datatype Status = Normal | Caution | Danger
  {
    /** The label shown to the operator, also used as a feedback impact level. */
    function Label(): string
    {
      match this
      case Normal => "정상"
      case Caution => "주의"
      case Danger => "위험"
    }

    function Severity(): nat
    {
      match this
      case Normal => 0
      case Caution => 1
      case Danger => 2
    }
  }

  /** The largest predicted error of the forecast. `Math.max` of no values is -Infinity,
      which is represented by None. */
  function MaxError(forecast: seq<ForecastPoint>): (m: Option<real>)
    ensures m.None? <==> |forecast| == 0
    ensures m.Some? ==> forall i :: 0 <= i < |forecast| ==> forecast[i].predictedError <= m.value
    ensures m.Some? ==> exists i :: 0 <= i < |forecast| && forecast[i].predictedError == m.value
  {
    if |forecast| == 0 then None
    else
      var head := forecast[0].predictedError;
      match MaxError(forecast[1..])
      case None => Some(head)
      case Some(rest) => Some(if head < rest then rest else head)
  }

  /** Banding of an error value against a threshold; the caution band is the top 30% below it. */
  function Classify(error: real, threshold: real): (s: Status)
    ensures s == Danger <==> error > threshold
    ensures s == Caution <==> threshold * 0.7 < error <= threshold
    ensures s == Normal <==> error <= threshold && error <= threshold * 0.7
  {
    if error > threshold then Danger
    else if error > threshold * 0.7 then Caution
    else Normal
  }

  /** The unit-wide status shown for the next 24 hours. -Infinity exceeds no threshold. */
  function OverallStatus(forecast: seq<ForecastPoint>, defaultThreshold: real): (s: Status)
    ensures |forecast| == 0 ==> s == Normal
    ensures forall i :: 0 <= i < |forecast| ==>
      Classify(forecast[i].predictedError, defaultThreshold).Severity() <= s.Severity()
    ensures |forecast| > 0 ==>
      exists i :: 0 <= i < |forecast| && s == Classify(forecast[i].predictedError, defaultThreshold)
  {
    match MaxError(forecast)
    case None => Normal
    case Some(m) => Classify(m, defaultThreshold)
  }

  /** The overall status read point by point: danger as soon as one hour exceeds the threshold,
      caution when none does but one exceeds 70% of it, normal otherwise. */
  lemma OverallStatusByHour(forecast: seq<ForecastPoint>, t: real)
    ensures OverallStatus(forecast, t) == Danger <==>
      exists i :: 0 <= i < |forecast| && forecast[i].predictedError > t
    ensures OverallStatus(forecast, t) == Caution <==>
      (forall i :: 0 <= i < |forecast| ==> forecast[i].predictedError <= t) &&
      (exists i :: 0 <= i < |forecast| && forecast[i].predictedError > t * 0.7)
    ensures OverallStatus(forecast, t) == Normal <==>
      forall i :: 0 <= i < |forecast| ==>
        forecast[i].predictedError <= t && forecast[i].predictedError <= t * 0.7
  {
  }

  /** A higher error never gives a lower status, and a higher threshold never gives a higher one. */
  lemma ClassifyMonotone(e1: real, e2: real, t1: real, t2: real)
    requires e1 <= e2 && t1 <= t2
    ensures Classify(e1, t2).Severity() <= Classify(e2, t1).Severity()
  {
  }

  /** An extra forecast hour never lowers the overall status. */
  lemma {:induction false} MoreHoursNeverLower(forecast: seq<ForecastPoint>, p: ForecastPoint, t: real)
    ensures OverallStatus(forecast, t).Severity() <= OverallStatus(forecast + [p], t).Severity()
  {
    var longer := forecast + [p];
    assert forall i :: 0 <= i < |forecast| ==> longer[i] == forecast[i];
    OverallStatusByHour(forecast, t);
    OverallStatusByHour(longer, t);
  }

  /** The status exactly at the band edges: the comparisons are strict. */
  lemma ClassifyAtEdges()
    ensures Classify(10.0, 10.0) == Caution
    ensures Classify(10.01, 10.0) == Danger
    ensures Classify(7.0, 10.0) == Normal
    ensures Classify(7.01, 10.0) == Caution
  {
  }

  /** The per-equipment flag: is the forecast's maximum error above the equipment's sensitivity? */
  function IsAtRisk(forecast: seq<ForecastPoint>, eq: Equipment): (r: bool)
    ensures r <==> exists i :: 0 <= i < |forecast| && forecast[i].predictedError > eq.sensitivity
  {
    match MaxError(forecast)
    case None => false
    case Some(m) => m > eq.sensitivity
  }

  /** The label next to an equipment entry: there is no caution band per equipment. */
  function EquipmentLabel(forecast: seq<ForecastPoint>, eq: Equipment): (l: string)
    ensures l == Danger.Label() || l == Normal.Label()
    ensures l == Danger.Label() <==>
      exists i :: 0 <= i < |forecast| && forecast[i].predictedError > eq.sensitivity
  {
    if IsAtRisk(forecast, eq) then Danger.Label() else Normal.Label()
  }

  /** The per-equipment flag is the danger band of the unit-wide banding, with the equipment's
      sensitivity as threshold; the caution band is folded into normal. */
  lemma EquipmentFlagIsDangerBand(forecast: seq<ForecastPoint>, eq: Equipment)
    ensures IsAtRisk(forecast, eq) <==> OverallStatus(forecast, eq.sensitivity) == Danger
    ensures EquipmentLabel(forecast, eq) ==
      (if OverallStatus(forecast, eq.sensitivity) == Danger then Danger.Label() else Normal.Label())
  {
  }

  datatype Colour = Red | Orange | Lime

  /** Colour of an ADS-B track by its navigation integrity category. */
  function NicColour(nic: int): (c: Colour)
    ensures c == Red <==> nic < 4
    ensures c == Orange <==> 4 <= nic < 8
    ensures c == Lime <==> 8 <= nic
  {
    if nic < 4 then Red
    else if nic < 8 then Orange
    else Lime
  }

  /** A track with a higher integrity category is never shown in a more alarming colour. */
  lemma NicColourMonotone(nic1: int, nic2: int)
    requires nic1 <= nic2
    ensures NicColour(nic1) == Red || NicColour(nic2) != Red
    ensures NicColour(nic1) == Lime ==> NicColour(nic2) == Lime
  {
  }
}
