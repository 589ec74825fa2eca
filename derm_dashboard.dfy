/** The dermatologist dashboard: the stat cards, the recent-patients table
    and the activity feed. */
module DermDashboard {
  import opened Common
  import opened Types
  import opened Search

  /** `DermatologistStats`; a field the server leaves out is `None`. */
  datatype Stats = Stats(totalPatients: Option<int>, newPatientsThisMonth: Option<int>)

  datatype Activity = Activity(activityType: string, details: string, patient: string, date: int)

  datatype ActivityIcon = ClipboardIcon | UsersIcon | CalendarIcon | ClockIcon

  function NameOf(p: Patient): string { p.name }
  function EmailOf(p: Patient): string { p.email }

  /** The rows of the recent-patients table: the first five patients whose
      name or email contains the term. */
  function RecentPatients(patients: seq<Patient>, term: string): (r: seq<Patient>)
    ensures |r| <= 5
    ensures r <= SearchBy(patients, NameOf, EmailOf, term)
    ensures |SearchBy(patients, NameOf, EmailOf, term)| >= 5 ==> |r| == 5
    ensures forall p :: p in r ==> p in patients
    ensures var s := SearchBy(patients, NameOf, EmailOf, term); r == s[..if |s| < 5 then |s| else 5]
  {
    Take(SearchBy(patients, NameOf, EmailOf, term), 5)
  }

  /** `getActivityIcon(type)`: the three known activity types have icons of
      their own, every other type the clock. */
  function IconOf(activityType: string): (icon: ActivityIcon)
    ensures icon == ClipboardIcon <==> activityType == "routine_created"
    ensures icon == UsersIcon <==> activityType == "assessment_completed"
    ensures icon == CalendarIcon <==> activityType == "progress_update"
  {
    if activityType == "routine_created" then ClipboardIcon
    else if activityType == "assessment_completed" then UsersIcon
    else if activityType == "progress_update" then CalendarIcon
    else ClockIcon
  }

  function TotalPatientsOf(s: Stats): Option<int> { s.totalPatients }
  function NewPatientsOf(s: Stats): Option<int> { s.newPatientsThisMonth }

  class Page {
    var stats: Option<Stats>
    var patients: seq<Patient>
    var activities: seq<Activity>
    var searchTerm: string
    var isLocalLoading: bool

    constructor()
      ensures stats.None? && patients == [] && activities == [] && searchTerm == "" && isLocalLoading
    {
      stats := None;
      patients := [];
      activities := [];
      searchTerm := "";
      isLocalLoading := true;
    }

    /** The two stat cards, `stats?.totalPatients || 0` and
        `stats?.newPatientsThisMonth || 0`: before the stats arrive, or for a
        field the server leaves out, the card shows 0. */
    function Cards(): (r: (int, int))
      reads this
      ensures stats.None? ==> r == (0, 0)
      ensures stats.Some? ==> r.0 == stats.value.totalPatients.GetOr(0) && r.1 == stats.value.newPatientsThisMonth.GetOr(0)
    {
      (StatOrZero(stats, TotalPatientsOf), StatOrZero(stats, NewPatientsOf))
    }

    /** The activity feed: `None` is the "No recent activity" state, otherwise
        one icon per activity, in order. */
    function Feed(): (r: Option<seq<ActivityIcon>>)
      reads this
      ensures r.None? <==> |activities| == 0
      ensures r.Some? ==> |r.value| == |activities|
      ensures r.Some? ==> forall i :: 0 <= i < |activities| ==> r.value[i] == IconOf(activities[i].activityType)
    {
      if |activities| == 0 then None
      else Some(seq(|activities|, i requires 0 <= i < |activities| reads this => IconOf(activities[i].activityType)))
    }

    /** `fetchDashboardData`: `outcome` is the joint result of the three calls;
        the fields change only when all three resolve. */
    method Fetch(outcome: Result<(Stats, seq<Patient>, seq<Activity>)>)
      modifies this
      ensures outcome.Ok? ==> stats == Some(outcome.value.0) && patients == outcome.value.1 && activities == outcome.value.2
      ensures outcome.Err? ==> stats == old(stats) && patients == old(patients) && activities == old(activities)
      ensures !isLocalLoading && searchTerm == old(searchTerm)
    {
      isLocalLoading := true;
      if outcome.Ok? {
        stats := Some(outcome.value.0);
        patients := outcome.value.1;
        activities := outcome.value.2;
      }
      isLocalLoading := false;
    }
  }
}
