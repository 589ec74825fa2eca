/** The user dashboard: three independent fetches (a failing one does not
    stop the next), the skin-profile card and the first few routines and
    logs. */
module UserDashboard {
  import opened Common
  import opened Text
  import opened Types
  import opened ProgressService
  import opened AppContext
  import Labels

  const RoutinesToast: string := "Failed to load your routines"
  const NoSkinType: string := "No skin type available"

  /** The "Skin Type" line: the type names separated by ", ". */
  function SkinTypeText(p: SkinProfile): (r: string)
    ensures p.skinTypes == [] ==> r == NoSkinType
    ensures |p.skinTypes| == 1 ==> r == p.skinTypes[0]
  {
    if |p.skinTypes| > 0 then Join(p.skinTypes, ", ") else NoSkinType
  }

  /** The "Top Concern" line. */
  function ConcernText(p: SkinProfile): string {
    Labels.FormatConcerns(Some(p.concerns))
  }

  class Page {
    var routines: seq<Routine>
    var recentLogs: seq<ProgressLog>
    var userProfile: Option<SkinProfile>
    var isLoading: bool
    /** The error toasts shown, in order. */
    var toasts: seq<string>

    constructor()
      ensures routines == [] && recentLogs == [] && userProfile.None? && isLoading && toasts == []
    {
      routines := [];
      recentLogs := [];
      userProfile := None;
      isLoading := true;
      toasts := [];
    }

    /** The routines card: at most the first three. */
    function RoutinesShown(): (r: seq<Routine>)
      reads this
      ensures |r| == if |routines| < 3 then |routines| else 3
      ensures r <= routines
    {
      Take(routines, 3)
    }

    /** The routines card's link. */
    function RoutinesLink(): (link: string)
      reads this
      ensures link == "View All Routines" <==> |routines| > 0
      ensures link == "Create Routine" <==> |routines| == 0
    {
      if |routines| > 0 then "View All Routines" else "Create Routine"
    }

    /** The progress card's link. */
    function LogsLink(): (link: string)
      reads this
      ensures link == "View Progress" <==> |recentLogs| > 0
      ensures link == "Add First Log" <==> |recentLogs| == 0
    {
      if |recentLogs| > 0 then "View Progress" else "Add First Log"
    }

    /** `fetchDashboardData`: the profile, routines and logs calls, each in
        its own `try`. A missing profile is silent; only the routines
        failure raises a toast. */
    method Fetch(session: Session, profile: Result<SkinProfile>, fetched: Result<seq<Routine>>,
                 logs: Result<seq<ProgressLog>>)
      modifies this, session
      ensures userProfile == (if profile.Ok? then Some(profile.value) else old(userProfile))
      ensures profile.Ok? ==> session.State() == old(session.State()).(skinProfile := Some(profile.value))
      ensures profile.Err? ==> session.State() == old(session.State())
      ensures routines == (if fetched.Ok? then fetched.value else old(routines))
      ensures logs.Ok? ==> recentLogs == Take(logs.value, 3)
      ensures logs.Err? ==> recentLogs == old(recentLogs)
      ensures toasts == old(toasts) + (if fetched.Err? then [RoutinesToast] else [])
      ensures !isLoading
    {
      isLoading := true;
      if profile.Ok? {
        userProfile := Some(profile.value);
        session.SetSkinProfile(Some(profile.value));
      }
      if fetched.Ok? {
        routines := fetched.value;
      } else {
        toasts := toasts + [RoutinesToast];
      }
      if logs.Ok? {
        recentLogs := Take(logs.value, 3);
      }
      isLoading := false;
    }
  }
}
