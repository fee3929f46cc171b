/** The application's top-level state: the active view, the unit profile, the mission logs and
    the forecast shown on the dashboard. */
module AppState {
  import opened Common
  import opened Profile
  import opened Dashboard
  import opened Feedback
  import Settings

  datatype View = DashboardView | SettingsView | FeedbackView

  class App {
    var activeView: View
    var profile: UnitProfile
    var missionLogs: seq<MissionLog>
    var forecast: seq<ForecastPoint>

    /** A fresh session with nothing saved: the default profile, no logs, the dashboard. */
    constructor (forecast: seq<ForecastPoint>)
      ensures activeView == DashboardView && profile == DefaultProfile
      ensures missionLogs == [] && this.forecast == forecast
      ensures UniqueIds(profile.equipment)
    {
      activeView := DashboardView;
      profile := DefaultProfile;
      missionLogs := [];
      this.forecast := forecast;
    }

    /** Submits a mission report under the id `id`. When the report warns of an impact at an hour
        whose forecast error was below the named equipment's sensitivity, a reduction is proposed
        (and returned); `confirmed` is the operator's answer to it. */
    method SubmitFeedback(report: Report, id: int, confirmed: bool) returns (proposal: Option<Adjustment>)
      modifies this
      ensures missionLogs == old(missionLogs) + [Stamp(report, id)]
      ensures proposal == Proposal(old(profile.equipment), forecast, report)
      ensures profile == old(profile).(equipment := Retune(old(profile.equipment), forecast, report, confirmed))
      ensures forecast == old(forecast)
      ensures activeView == DashboardView
      ensures UniqueIds(old(profile.equipment)) ==> UniqueIds(profile.equipment)
    {
      missionLogs := missionLogs + [Stamp(report, id)];
      proposal := None;
      if IsWarning(report.impactLevel) {
        var missionTime := HourPart(report.time);
        var at := FindFirst(forecast, AtHour(missionTime));
        if at.Some? {
          var errorAtMissionTime := forecast[at.value].predictedError;
          var found := FindFirst(profile.equipment, Named(report.equipment));
          if found.Some? && errorAtMissionTime < profile.equipment[found.value].sensitivity {
            var target := profile.equipment[found.value];
            var newSensitivity := Round2(target.sensitivity * 0.9);
            proposal := Some(Adjustment(target.id, target.sensitivity, newSensitivity, errorAtMissionTime));
            if confirmed {
              var updated := Settings.UpdateEquipment(profile.equipment, target.id, Settings.SetSensitivity(newSensitivity));
              profile := profile.(equipment := updated);
            }
          }
        }
      }
      activeView := DashboardView;
    }
  }
}
