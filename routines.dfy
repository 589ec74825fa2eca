/** `Routines`: the user's routine list with its create/edit dialog. */
module Routines {
  import opened Common
  import opened Types
  import opened HookForm

  /** `RoutineFormValues`. */
  datatype RoutineForm = RoutineForm(name: string, routineType: string)

  const EmptyForm: RoutineForm := RoutineForm("", "")

  /** The service call a save makes. */
  datatype SaveCall = UpdateCall(id: string, values: RoutineForm) | CreateCall(values: RoutineForm)

  function IdOf(r: Routine): string { r.id }

  /** The list after a save the server accepted with `result`: replace by id
      when editing, append otherwise. */
  function AfterSave(routines: seq<Routine>, editing: Option<Routine>, result: Routine): (r: seq<Routine>)
    ensures editing.None? ==> r == routines + [result]
    ensures editing.Some? ==> |r| == |routines|
    ensures editing.Some? ==> forall i :: 0 <= i < |routines| ==>
      r[i] == if routines[i].id == editing.value.id then result else routines[i]
  {
    match editing
    case Some(e) => ReplaceById(routines, IdOf, e.id, result)
    case None => routines + [result]
  }

  /** Saving an edit of a routine that is no longer listed leaves the list as it was. */
  lemma SaveOfUnlistedEdit(routines: seq<Routine>, e: Routine, result: Routine)
    requires forall r :: r in routines ==> r.id != e.id
    ensures AfterSave(routines, Some(e), result) == routines
  {
    var r := AfterSave(routines, Some(e), result);
    assert forall i :: 0 <= i < |routines| ==> routines[i] in routines;
    assert forall i :: 0 <= i < |routines| ==> r[i] == routines[i];
  }

  class Page {
    var routines: seq<Routine>
    var isDialogOpen: bool
    var isLocalLoading: bool
    var editingRoutine: Option<Routine>
    var form: Form<RoutineForm>
    /** The calls to `updateRoutine` / `createRoutine`, in order. */
    var calls: seq<SaveCall>

    /** An edit is only ever in progress while the dialog is open. */
    predicate Consistent()
      reads this
    {
      editingRoutine.Some? ==> isDialogOpen
    }

    constructor()
      ensures Consistent()
      ensures routines == [] && !isDialogOpen && isLocalLoading && editingRoutine.None?
      ensures form == Init(EmptyForm) && calls == []
    {
      routines := [];
      isDialogOpen := false;
      isLocalLoading := true;
      editingRoutine := None;
      form := Init(EmptyForm);
      calls := [];
    }

    /** `fetchRoutines`: `outcome` is the awaited `getRoutines`. */
    method Fetch(outcome: Result<seq<Routine>>)
      requires Consistent()
      modifies this
      ensures Consistent()
      ensures routines == (if outcome.Ok? then outcome.value else old(routines))
      ensures !isLocalLoading
      ensures isDialogOpen == old(isDialogOpen) && editingRoutine == old(editingRoutine)
      ensures form == old(form) && calls == old(calls)
    {
      isLocalLoading := true;
      if outcome.Ok? {
        routines := outcome.value;
      }
      isLocalLoading := false;
    }

    /** `handleEditRoutine(r)`: load `r` into the form and open the dialog. */
    method Edit(r: Routine)
      requires Consistent()
      modifies this
      ensures Consistent()
      ensures editingRoutine == Some(r) && isDialogOpen
      ensures form == old(form).ResetTo(RoutineForm(r.name, r.routineType))
      ensures routines == old(routines) && calls == old(calls) && isLocalLoading == old(isLocalLoading)
    {
      editingRoutine := Some(r);
      form := form.ResetTo(RoutineForm(r.name, r.routineType));
      isDialogOpen := true;
    }

    /** The empty state's "Create Routine" button: opens the dialog and nothing else. */
    method OpenFromEmptyState()
      requires Consistent()
      modifies this
      ensures Consistent()
      ensures isDialogOpen
      ensures editingRoutine == old(editingRoutine) && form == old(form)
      ensures routines == old(routines) && calls == old(calls) && isLocalLoading == old(isLocalLoading)
    {
      isDialogOpen := true;
    }

    /** `onSubmit(values)`: `outcome` is the awaited update or create. */
    method Submit(values: RoutineForm, outcome: Result<Routine>)
      requires Consistent()
      modifies this
      ensures Consistent()
      ensures calls == old(calls) + [if old(editingRoutine).Some? then UpdateCall(old(editingRoutine).value.id, values) else CreateCall(values)]
      ensures outcome.Ok? ==> routines == AfterSave(old(routines), old(editingRoutine), outcome.value)
      ensures outcome.Ok? ==> !isDialogOpen && editingRoutine.None? && form == old(form).Reset()
      ensures outcome.Err? ==> routines == old(routines) && editingRoutine == old(editingRoutine)
      ensures outcome.Err? ==> isDialogOpen == old(isDialogOpen) && form == old(form)
      ensures isLocalLoading == old(isLocalLoading)
    {
      var call := if editingRoutine.Some? then UpdateCall(editingRoutine.value.id, values) else CreateCall(values);
      calls := calls + [call];
      if outcome.Ok? {
        routines := AfterSave(routines, editingRoutine, outcome.value);
        isDialogOpen := false;
        editingRoutine := None;
        form := form.Reset();
      }
    }

    /** `handleDeleteRoutine(id)`: `ok` is whether `deleteRoutine` resolved. */
    method Delete(id: string, ok: bool)
      requires Consistent()
      modifies this
      ensures Consistent()
      ensures routines == (if ok then WithoutId(old(routines), IdOf, id) else old(routines))
      ensures isDialogOpen == old(isDialogOpen) && editingRoutine == old(editingRoutine)
      ensures form == old(form) && calls == old(calls) && isLocalLoading == old(isLocalLoading)
    {
      if ok {
        routines := WithoutId(routines, IdOf, id);
      }
    }

    /** `handleDialogClose(open)`, the dialog's `onOpenChange`: closing drops
        the edit and empties the form; opening only opens. */
    method DialogChange(open: bool)
      requires Consistent()
      modifies this
      ensures Consistent()
      ensures isDialogOpen == open
      ensures !open ==> editingRoutine.None? && form == old(form).ResetTo(EmptyForm)
      ensures open ==> editingRoutine == old(editingRoutine) && form == old(form)
      ensures routines == old(routines) && calls == old(calls) && isLocalLoading == old(isLocalLoading)
    {
      if !open {
        editingRoutine := None;
        form := form.ResetTo(EmptyForm);
      }
      isDialogOpen := open;
    }
  }

  /** After an edit is saved, `form.reset()` goes back to the edited routine's
      values (the edit's `reset(values)` made them the defaults), so the next
      "New Routine" dialog opens pre-filled with them. */
  lemma SavedEditStaysInForm(f: Form<RoutineForm>, r: Routine, typed: RoutineForm)
    ensures f.ResetTo(RoutineForm(r.name, r.routineType)).SetValues(typed).Reset().values
         == RoutineForm(r.name, r.routineType)
  {
    ResetAfterResetTo(f, RoutineForm(r.name, r.routineType), typed);
  }
}
