/** The admin's card of dermatologists awaiting approval, with its
    confirmation dialog. The awaited `approveDermatologist` call is split in
    two steps, so that the loading flag that disables the buttons is visible. */
module PendingDermatologists {
  import opened Common
  import opened Text
  import opened Types

  datatype Decision = Approved | Rejected

  /** The status string sent to the server. */
  function StatusOf(d: Decision): (s: string)
    ensures s == "APPROVED" || s == "REJECTED"
    ensures (s == "APPROVED") <==> d == Approved
  {
    if d == Approved then "APPROVED" else "REJECTED"
  }

  /** "`n` dermatologist(s) waiting for approval": plural unless exactly one. */
  function WaitingText(n: nat): string {
    NatToString(n) + " dermatologist" + (if n != 1 then "s" else "") + " waiting for approval"
  }

  /** The count shown is the number of dermatologists, and the noun is plural
      exactly when that number is not one. */
  lemma WaitingTextCount(n: nat)
    ensures ParseInt(WaitingText(n)[..|NatToString(n)|]) == Some(n)
    ensures |WaitingText(n)| == |NatToString(n)| + 35 + (if n != 1 then 1 else 0)
  {
    assert WaitingText(n)[..|NatToString(n)|] == NatToString(n);
    ParseNatToString(n);
  }

  /** The dialog title's verb and the confirm button's label: anything but an
      approval reads "Reject". */
  function Verb(action: Option<Decision>): (v: string)
    ensures v == "Approve" <==> action == Some(Approved)
    ensures v == "Approve" || v == "Reject"
  {
    if action == Some(Approved) then "Approve" else "Reject"
  }

  function ConfirmLabel(isLoading: bool, action: Option<Decision>): (l: string)
    ensures isLoading ==> l == "Processing..."
    ensures !isLoading ==> l == Verb(action)
  {
    if isLoading then "Processing..." else Verb(action)
  }

  /** The success toast: the status in lower case. */
  function SuccessToast(d: Decision): string {
    "Dermatologist " + Lower(StatusOf(d)) + " successfully. Email notification sent."
  }

  /** The two toasts name the two decisions apart. */
  lemma SuccessToastsDiffer()
    ensures SuccessToast(Approved) != SuccessToast(Rejected)
  {
    assert Lower("APPROVED")[0] == 'a';
    assert Lower("REJECTED")[0] == 'r';
    assert SuccessToast(Approved)[14] == 'a';
    assert SuccessToast(Rejected)[14] == 'r';
  }

  class Card {
    /** The `dermatologists` prop. */
    var dermatologists: seq<User>
    var isLoading: bool
    var selected: Option<User>
    var actionType: Option<Decision>
    var isDialogOpen: bool
    /** The `(id, status)` pairs sent to `approveDermatologist`, in order. */
    var calls: seq<(string, string)>
    /** How many times the `onApprove` callback has run. */
    var approvals: nat
    var toasts: seq<string>

    constructor(pending: seq<User>)
      ensures dermatologists == pending && !isLoading && selected == None && actionType == None
      ensures !isDialogOpen && calls == [] && approvals == 0 && toasts == []
    {
      dermatologists := pending;
      isLoading := false;
      selected := None;
      actionType := None;
      isDialogOpen := false;
      calls := [];
      approvals := 0;
      toasts := [];
    }

    /** A row's Approve or Reject button (disabled while a call is pending). */
    method OpenConfirmDialog(d: User, action: Decision)
      requires !isLoading
      modifies this
      ensures selected == Some(d) && actionType == Some(action) && isDialogOpen
      ensures dermatologists == old(dermatologists) && isLoading == old(isLoading)
      ensures calls == old(calls) && approvals == old(approvals) && toasts == old(toasts)
    {
      selected := Some(d);
      actionType := Some(action);
      isDialogOpen := true;
    }

    /** `onOpenChange` and the Cancel button. */
    method DialogChange(open: bool)
      modifies this
      ensures isDialogOpen == open
      ensures dermatologists == old(dermatologists) && isLoading == old(isLoading) && selected == old(selected)
      ensures actionType == old(actionType) && calls == old(calls) && approvals == old(approvals) && toasts == old(toasts)
    {
      isDialogOpen := open;
    }

    /** The confirm button (disabled while loading): with a selected
        dermatologist and an action it starts `handleAction`, up to its await. */
    method Confirm()
      requires !isLoading
      modifies this
      ensures selected.Some? && actionType.Some? ==>
        isLoading && calls == old(calls) + [(selected.value.id, StatusOf(actionType.value))]
      ensures !(selected.Some? && actionType.Some?) ==> !isLoading && calls == old(calls)
      ensures dermatologists == old(dermatologists) && selected == old(selected) && actionType == old(actionType)
      ensures isDialogOpen == old(isDialogOpen) && approvals == old(approvals) && toasts == old(toasts)
    {
      if selected.Some? && actionType.Some? {
        isLoading := true;
        calls := calls + [(selected.value.id, StatusOf(actionType.value))];
      }
    }

    /** The rest of `handleAction` once the call settles: on success the
        parent is told and the dialog closes; either way loading ends. */
    method Settle(ok: bool)
      requires isLoading && actionType.Some?
      modifies this
      ensures !isLoading
      ensures ok ==> (approvals == old(approvals) + 1 && !isDialogOpen
        && toasts == old(toasts) + [SuccessToast(old(actionType).value)])
      ensures !ok ==> (approvals == old(approvals) && isDialogOpen == old(isDialogOpen)
        && toasts == old(toasts) + ["Failed to update dermatologist status"])
      ensures dermatologists == old(dermatologists) && selected == old(selected) && actionType == old(actionType)
      ensures calls == old(calls)
    {
      if ok {
        toasts := toasts + [SuccessToast(actionType.value)];
        approvals := approvals + 1;
        isDialogOpen := false;
      } else {
        toasts := toasts + ["Failed to update dermatologist status"];
      }
      isLoading := false;
    }
  }
}
