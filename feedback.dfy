/** The decision logic of mission-feedback submission: which forecast hour a report refers to,
    which equipment it names, and the sensitivity reduction proposed to the operator. */
module Feedback {
  import opened Common
  import opened Profile
  import opened Dashboard
  import opened Settings

  /** What the feedback form submits. */
  datatype Report = Report(time: string, equipment: string, impactLevel: string)

  /** A stored mission log: the submitted report with an id attached. */
  datatype MissionLog = MissionLog(id: int, time: string, equipment: string, impactLevel: string)

  function Stamp(report: Report, id: int): (log: MissionLog)
    ensures log.id == id
    ensures Report(log.time, log.equipment, log.impactLevel) == report
  {
    MissionLog(id, report.time, report.equipment, report.impactLevel)
  }

  /** Reports of caution or danger are the ones that may lead to a threshold reduction. */
  predicate IsWarning(impactLevel: string): (b: bool)
    ensures b <==> exists s: Status :: s.Severity() > 0 && s.Label() == impactLevel
  {
    impactLevel == Caution.Label() || impactLevel == Danger.Label()
  }

  /** `time.split(':')[0]`: everything before the first colon, or all of `time` if it has none. */
  function HourPart(time: string): (h: string)
    ensures h <= time
    ensures ':' !in h
    ensures |h| < |time| ==> time[|h|] == ':'
  {
    if |time| == 0 || time[0] == ':' then ""
    else [time[0]] + HourPart(time[1..])
  }

  /** A forecast point is taken for an hour when its label starts with that hour. */
  predicate HourMatches(hour: string, d: ForecastPoint): (b: bool)
    ensures b <==> |hour| <= |d.time| && d.time[..|hour|] == hour
  {
    hour <= d.time
  }

  /** The callback given to `forecast.find` for an hour. */
  function AtHour(hour: string): ForecastPoint -> bool
  {
    (d: ForecastPoint) => HourMatches(hour, d)
  }

  /** The callback given to `equipment.find` for a name. */
  function Named(name: string): Equipment -> bool
  {
    (e: Equipment) => e.name == name
  }

  ghost predicate FirstHourMatch(forecast: seq<ForecastPoint>, time: string, i: int)
  {
    0 <= i < |forecast| && HourMatches(HourPart(time), forecast[i]) &&
    forall j :: 0 <= j < i ==> !HourMatches(HourPart(time), forecast[j])
  }

  ghost predicate FirstNamed(eqs: seq<Equipment>, name: string, k: int)
  {
    0 <= k < |eqs| && eqs[k].name == name &&
    forall j :: 0 <= j < k ==> eqs[j].name != name
  }

  /** `parseFloat(x.toFixed(2))` on exact numbers: the nearest hundredth, halves rounded away
      from zero. */
  function Round2(x: real): (r: real)
    ensures (r * 100.0).Floor as real == r * 100.0
    ensures -0.005 <= r - x <= 0.005
    ensures x >= 0.0 ==> -0.005 < r - x
    ensures x < 0.0 ==> r - x < 0.005
  {
    var m := if x >= 0.0 then Hundredths(x) else -Hundredths(-x);
    assert -0.5 <= m as real - 100.0 * x <= 0.5;
    assert (m as real).Floor == m;
    m as real / 100.0
  }

  /** The number of hundredths nearest to `x`, halves rounded up. */
  function Hundredths(x: real): (n: int)
    ensures -0.5 < n as real - 100.0 * x <= 0.5
  {
    (100.0 * x + 0.5).Floor
  }

  /** Reducing by 10% and rounding gives a strictly lower threshold above 5 cm. */
  lemma ReductionLowers(s: real)
    requires s > 0.05
    ensures Round2(s * 0.9) < s
  {
  }

  /** The content of the confirmation dialog: which entry, its current and proposed sensitivity,
      and the forecast error at the reported hour. */
  datatype Adjustment = Adjustment(equipmentId: int, current: real, proposed: real, observedError: real)

  /** The reduction proposed for a report, if any. */
  function Proposal(eqs: seq<Equipment>, forecast: seq<ForecastPoint>, report: Report): (r: Option<Adjustment>)
    ensures r.Some? ==> IsWarning(report.impactLevel)
    ensures r.Some? ==> r.value.observedError < r.value.current && r.value.proposed == Round2(r.value.current * 0.9)
  {
    if !IsWarning(report.impactLevel) then None
    else match FindFirst(forecast, AtHour(HourPart(report.time)))
      case None => None
      case Some(i) =>
        match FindFirst(eqs, Named(report.equipment))
        case None => None
        case Some(k) =>
          if forecast[i].predictedError < eqs[k].sensitivity then
            Some(Adjustment(eqs[k].id, eqs[k].sensitivity, Round2(eqs[k].sensitivity * 0.9), forecast[i].predictedError))
          else None
  }

  /** A reduction is proposed exactly when the report warns of an impact, a forecast hour matches
      the report's hour, an entry carries the reported name, and the forecast error at the first
      such hour is below the first such entry's sensitivity; it proposes 90% of that
      sensitivity, rounded to hundredths. */
  lemma ProposalSpec(eqs: seq<Equipment>, forecast: seq<ForecastPoint>, report: Report)
    ensures Proposal(eqs, forecast, report).Some? <==>
      IsWarning(report.impactLevel) &&
      exists i, k :: FirstHourMatch(forecast, report.time, i) && FirstNamed(eqs, report.equipment, k) &&
        forecast[i].predictedError < eqs[k].sensitivity
    ensures forall i, k ::
      Proposal(eqs, forecast, report).Some? && FirstHourMatch(forecast, report.time, i) && FirstNamed(eqs, report.equipment, k) ==>
      Proposal(eqs, forecast, report).value ==
        Adjustment(eqs[k].id, eqs[k].sensitivity, Round2(eqs[k].sensitivity * 0.9), forecast[i].predictedError)
  {
  }

  /** The equipment list after a submission: the proposed reduction, applied by id, if the
      operator confirms it. */
  function Retune(eqs: seq<Equipment>, forecast: seq<ForecastPoint>, report: Report, confirmed: bool): (r: seq<Equipment>)
    ensures |r| == |eqs|
    ensures forall j :: 0 <= j < |eqs| ==> r[j].id == eqs[j].id && r[j].name == eqs[j].name
    ensures UniqueIds(eqs) ==> UniqueIds(r)
    ensures r != eqs ==>
      confirmed && IsWarning(report.impactLevel) &&
      exists i, k :: FirstHourMatch(forecast, report.time, i) && FirstNamed(eqs, report.equipment, k) &&
        forecast[i].predictedError < eqs[k].sensitivity
  {
    match Proposal(eqs, forecast, report)
    case Some(a) => if confirmed then UpdateEquipment(eqs, a.equipmentId, SetSensitivity(a.proposed)) else eqs
    case None => eqs
  }

  /** With unique ids, a confirmed reduction replaces the named entry's sensitivity by the
      rounded 90% of it and leaves every other entry as it was. */
  lemma RetuneChangesOnlyTarget(eqs: seq<Equipment>, forecast: seq<ForecastPoint>, report: Report, i: int, k: int)
    requires UniqueIds(eqs) && IsWarning(report.impactLevel)
    requires FirstHourMatch(forecast, report.time, i) && FirstNamed(eqs, report.equipment, k)
    requires forecast[i].predictedError < eqs[k].sensitivity
    ensures |Retune(eqs, forecast, report, true)| == |eqs|
    ensures Retune(eqs, forecast, report, true)[k] == eqs[k].(sensitivity := Round2(eqs[k].sensitivity * 0.9))
    ensures forall j :: 0 <= j < |eqs| && j != k ==> Retune(eqs, forecast, report, true)[j] == eqs[j]
  {
  }

  /** A danger report on the JDAM at 21:30, when 21:00 was forecast at 6 m, proposes lowering its
      10 m threshold to 9 m; confirmed, only that entry changes. */
  lemma DefaultProfileScenario()
    ensures Retune(DefaultProfile.equipment, [ForecastPoint("21:00", 6.0, 2.0)], Report("21:30", "JDAM", "위험"), true) ==
      [Equipment(1, "JDAM", 9.0), DefaultProfile.equipment[1], DefaultProfile.equipment[2]]
  {
  }

  /** The reduction is applied by id: when ids repeat, every entry sharing the found entry's id
      receives the found entry's reduced sensitivity. */
  lemma RetuneAppliesById(eqs: seq<Equipment>, forecast: seq<ForecastPoint>, report: Report, i: int, k: int)
    requires IsWarning(report.impactLevel)
    requires FirstHourMatch(forecast, report.time, i) && FirstNamed(eqs, report.equipment, k)
    requires forecast[i].predictedError < eqs[k].sensitivity
    ensures |Retune(eqs, forecast, report, true)| == |eqs|
    ensures forall j :: 0 <= j < |eqs| ==>
      Retune(eqs, forecast, report, true)[j] ==
        if eqs[j].id == eqs[k].id then eqs[j].(sensitivity := Round2(eqs[k].sensitivity * 0.9)) else eqs[j]
  {
  }
}
