/** `ProgressTracker`: the user's progress logs, the add-log dialog and the
    month grouping of the list. */
module ProgressTracker {
  import opened Common
  import opened ProgressService

  /** The add-log form. `rating` 0 stands for a missing rating. */
  datatype LogForm = LogForm(image: Option<File>, notes: string, concerns: string, rating: nat)

  const DefaultForm: LogForm := LogForm(None, "", "", 3)

  /** `!values.concerns || !values.rating`. */
  predicate Incomplete(v: LogForm) {
    v.concerns == "" || v.rating == 0
  }

  /** The payload `onSubmit` hands to `createLog`: the form's four fields. */
  function PayloadOf(v: LogForm): LogPayload {
    LogPayload(v.image, Some(v.notes), v.concerns, v.rating)
  }

  /** The logs of one month, in list order. */
  function InMonth(logs: seq<ProgressLog>, monthOf: int -> string, m: string): seq<ProgressLog> {
    Filter(logs, (l: ProgressLog) => monthOf(l.createdAt) == m)
  }

  ghost predicate Distinct<T>(s: seq<T>) {
    forall i, j :: 0 <= i < j < |s| ==> s[i] != s[j]
  }

  function MonthsOf(logs: seq<ProgressLog>, monthOf: int -> string): set<string> {
    set l | l in logs :: monthOf(l.createdAt)
  }

  /** `groups` holds exactly the months of `logs`, each with that month's logs in order. */
  ghost predicate GroupsOf(logs: seq<ProgressLog>, monthOf: int -> string, groups: map<string, seq<ProgressLog>>) {
    && groups.Keys == MonthsOf(logs, monthOf)
    && forall m :: m in groups ==> groups[m] == InMonth(logs, monthOf, m)
  }

  lemma EmptyMonth(logs: seq<ProgressLog>, monthOf: int -> string, m: string)
    requires m !in MonthsOf(logs, monthOf)
    ensures InMonth(logs, monthOf, m) == []
  {
    var r := InMonth(logs, monthOf, m);
    assert forall l :: l !in r;
  }

  /** Appending a log adds its month to the set of months. */
  lemma MonthsOfPush(logs: seq<ProgressLog>, log: ProgressLog, monthOf: int -> string)
    ensures MonthsOf(logs + [log], monthOf) == MonthsOf(logs, monthOf) + {monthOf(log.createdAt)}
  {
    forall l | l in logs + [log] ensures l in logs || l == log { }
  }

  /** Appending a log extends its own month's logs by it and leaves every
      other month's logs as they were. */
  lemma InMonthPush(logs: seq<ProgressLog>, log: ProgressLog, monthOf: int -> string, k: string)
    ensures InMonth(logs + [log], monthOf, k) ==
      InMonth(logs, monthOf, k) + (if monthOf(log.createdAt) == k then [log] else [])
  {
    var keep := (l: ProgressLog) => monthOf(l.createdAt) == k;
    FilterConcat(logs, [log], keep);
    assert Filter([log], keep) == if keep(log) then [log] else [];
  }

  /** One step of the `reduce`: push `log` onto its month's group. */
  lemma GroupPush(logs: seq<ProgressLog>, log: ProgressLog, monthOf: int -> string,
                  groups: map<string, seq<ProgressLog>>)
    requires GroupsOf(logs, monthOf, groups)
    ensures var m := monthOf(log.createdAt);
      GroupsOf(logs + [log], monthOf, groups[m := (if m in groups then groups[m] else []) + [log]])
  {
    var m := monthOf(log.createdAt);
    var next := groups[m := (if m in groups then groups[m] else []) + [log]];
    forall k | k in next
      ensures next[k] == InMonth(logs + [log], monthOf, k)
    {
      InMonthPush(logs, log, monthOf, k);
      if k == m && m !in groups {
        EmptyMonth(logs, monthOf, m);
      }
    }
    MonthsOfPush(logs, log, monthOf);
  }

  /** `groupedLogs`: the `reduce` into a dictionary keyed by each log's month.
      `months` lists each key of the dictionary once. */
  method GroupByMonth(logs: seq<ProgressLog>, monthOf: int -> string)
    returns (months: seq<string>, groups: map<string, seq<ProgressLog>>)
    ensures groups.Keys == MonthsOf(logs, monthOf)
    ensures forall m :: m in groups ==> groups[m] == InMonth(logs, monthOf, m)
    ensures forall m :: m in months <==> m in groups
    ensures Distinct(months)
  {
    months := [];
    groups := map[];
    var i := 0;
    while i < |logs|
      invariant 0 <= i <= |logs|
      invariant GroupsOf(logs[..i], monthOf, groups)
      invariant forall m :: m in months <==> m in groups
      invariant Distinct(months)
    {
      var log := logs[i];
      var month := monthOf(log.createdAt);
      GroupPush(logs[..i], log, monthOf, groups);
      assert logs[..i + 1] == logs[..i] + [log];
      if month !in groups {
        months := months + [month];
      }
      groups := groups[month := (if month in groups then groups[month] else []) + [log]];
      i := i + 1;
    }
    assert logs[..i] == logs;
  }

  /** Every log sits in exactly one group: its own month's. */
  lemma EachLogInOneGroup(logs: seq<ProgressLog>, monthOf: int -> string, l: ProgressLog, m: string)
    requires l in logs
    ensures l in InMonth(logs, monthOf, monthOf(l.createdAt))
    ensures m != monthOf(l.createdAt) ==> l !in InMonth(logs, monthOf, m)
  {
  }

  class Tracker {
    var logs: seq<ProgressLog>
    var isDialogOpen: bool
    var isLocalLoading: bool
    var viewingLog: Option<ProgressLog>
    var isViewDialogOpen: bool
    var form: LogForm
    /** The payloads handed to `createLog`. */
    var created: seq<LogPayload>

    constructor()
      ensures logs == [] && !isDialogOpen && isLocalLoading && viewingLog.None? && !isViewDialogOpen
      ensures form == DefaultForm && created == []
    {
      logs := [];
      isDialogOpen := false;
      isLocalLoading := true;
      viewingLog := None;
      isViewDialogOpen := false;
      form := DefaultForm;
      created := [];
    }

    /** The "No Progress Logs Yet" panel. */
    predicate ShowsEmptyState()
      reads this
    {
      |logs| == 0
    }

    method FetchLogs(outcome: Result<seq<ProgressLog>>)
      modifies this
      ensures outcome.Ok? ==> logs == outcome.value
      ensures outcome.Err? ==> logs == old(logs)
      ensures !isLocalLoading
      ensures form == old(form) && created == old(created) && isDialogOpen == old(isDialogOpen)
      ensures viewingLog == old(viewingLog) && isViewDialogOpen == old(isViewDialogOpen)
    {
      isLocalLoading := true;
      if outcome.Ok? {
        logs := outcome.value;
      }
      isLocalLoading := false;
    }

    /** `onSubmit(values)`: `outcome` is the awaited `createLog`. */
    method Submit(values: LogForm, outcome: Result<ProgressLog>)
      modifies this
      ensures Incomplete(values) ==>
        logs == old(logs) && created == old(created) && form == old(form) && isDialogOpen == old(isDialogOpen)
      ensures !Incomplete(values) ==> created == old(created) + [PayloadOf(values)]
      ensures !Incomplete(values) && outcome.Ok? ==>
        logs == [outcome.value] + old(logs) && !isDialogOpen && form == DefaultForm
      ensures !Incomplete(values) && outcome.Err? ==>
        logs == old(logs) && isDialogOpen == old(isDialogOpen) && form == old(form)
      ensures viewingLog == old(viewingLog) && isViewDialogOpen == old(isViewDialogOpen)
      ensures isLocalLoading == old(isLocalLoading)
    {
      if Incomplete(values) {
        return;
      }
      created := created + [PayloadOf(values)];
      if outcome.Ok? {
        logs := [outcome.value] + logs;
        isDialogOpen := false;
        form := DefaultForm;
      }
    }

    /** `handleDeleteLog(id)`. */
    method DeleteLog(id: string, ok: bool)
      modifies this
      ensures ok ==> logs == Filter(old(logs), (l: ProgressLog) => l.id != id) && !isViewDialogOpen
      ensures !ok ==> logs == old(logs) && isViewDialogOpen == old(isViewDialogOpen)
      ensures form == old(form) && created == old(created) && isDialogOpen == old(isDialogOpen)
      ensures viewingLog == old(viewingLog) && isLocalLoading == old(isLocalLoading)
    {
      if ok {
        logs := Filter(logs, (l: ProgressLog) => l.id != id);
        isViewDialogOpen := false;
      }
    }

    /** The create dialog's `onOpenChange`; "New Entry" and "Add First Entry" ask for `true`. */
    method DialogChange(open: bool)
      modifies this
      ensures isDialogOpen == open
      ensures logs == old(logs) && form == old(form) && created == old(created) && isLocalLoading == old(isLocalLoading)
      ensures viewingLog == old(viewingLog) && isViewDialogOpen == old(isViewDialogOpen)
    {
      isDialogOpen := open;
    }

    /** The view dialog's `onOpenChange`; the viewed log stays recorded. */
    method ViewDialogChange(open: bool)
      modifies this
      ensures isViewDialogOpen == open
      ensures logs == old(logs) && form == old(form) && created == old(created) && isLocalLoading == old(isLocalLoading)
      ensures viewingLog == old(viewingLog) && isDialogOpen == old(isDialogOpen)
    {
      isViewDialogOpen := open;
    }

    /** `handleViewLog(log)`. */
    method ViewLog(log: ProgressLog)
      modifies this
      ensures viewingLog == Some(log) && isViewDialogOpen
      ensures logs == old(logs) && form == old(form) && created == old(created) && isDialogOpen == old(isDialogOpen)
      ensures isLocalLoading == old(isLocalLoading)
    {
      viewingLog := Some(log);
      isViewDialogOpen := true;
    }
  }
}
