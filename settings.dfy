/** The settings page's danger zone: the second lifecycle controller. It shows one button per
    offered action, opens a confirmation modal for it, and on submit writes the shared status. */
module Settings {
  import opened Wrappers
  import opened Lifecycle
  import PlanContent

  /** The danger zone's buttons: resume when paused, otherwise pause when active; reactivate when
      suspended, otherwise suspend when active; terminate unless already terminated. */
  function DangerZoneOffered(s: TenantStatus): set<AccessAction>
  {
    (if s == Paused then {Resume} else if s == Active then {Pause} else {}) +
    (if s == Suspended then {Activate} else if s == Active then {Suspend} else {}) +
    (if s != Terminated then {Terminate} else {})
  }

  /** The status the submit handler sets for each action, checked one action after another. */
  function SubmitTarget(a: AccessAction): TenantStatus
  {
    if a == Suspend then Suspended
    else if a == Pause then Paused
    else if a == Terminate then Terminated
    else Active
  }

  /** Submit is disabled only for a termination whose typed text is not exactly the literal. */
  predicate SubmitEnabled(a: AccessAction, text: string)
  {
    !(a == Terminate && text != DeleteConfirmation)
  }

  /** The danger zone implements the lifecycle table: the buttons shown are exactly the legal
      actions, submit applies the table's target, and its gate is the table's gate. */
  lemma DangerZoneFollowsTable(s: TenantStatus, a: AccessAction, text: string)
    ensures a in DangerZoneOffered(s) <==> Legal(s, a)
    ensures SubmitTarget(a) == Target(a)
    ensures SubmitEnabled(a, text) <==> ConfirmGate(a, text)
  {
  }

  /** The two controllers agree: in every status they offer the same actions, an action leads to
      the same status, and the same text passes the same gate. */
  lemma {:induction false} ControllersAgree(s: TenantStatus, a: AccessAction, text: string)
    ensures DangerZoneOffered(s) == PlanContent.AccessMenuOffered(s)
    ensures SubmitTarget(a) == PlanContent.AccessTarget(a)
    ensures SubmitEnabled(a, text) == PlanContent.AccessConfirmEnabled(PlanContent.Confirming(a), text)
  {
    forall b: AccessAction
      ensures b in DangerZoneOffered(s) <==> b in PlanContent.AccessMenuOffered(s)
    {
      DangerZoneFollowsTable(s, b, text);
      PlanContent.AccessMenuFollowsTable(s, b, text);
    }
    DangerZoneFollowsTable(s, a, text);
    PlanContent.AccessMenuFollowsTable(s, a, text);
  }

  /** The danger zone by status: pause and suspend for an active tenant; resume, and no suspend,
      for a paused one; reactivate, and no pause, for a suspended one; nothing once terminated. */
  lemma DangerZoneByStatus()
    ensures DangerZoneOffered(Active) == {Pause, Suspend, Terminate}
    ensures DangerZoneOffered(Paused) == {Resume, Terminate}
    ensures DangerZoneOffered(Suspended) == {Activate, Terminate}
    ensures DangerZoneOffered(Terminated) == {}
  {
  }

  class DangerZone {
    /** The status lifted into the application shell; the plan page holds the same object. */
    const tenant: Tenant

    var statusModalOpen: bool
    var statusAction: AccessAction
    var terminationConfirmText: string
    var suspensionReason: string

    constructor (tenant: Tenant)
      ensures this.tenant == tenant
      ensures !statusModalOpen && statusAction == Suspend
      ensures terminationConfirmText == "" && suspensionReason == ""
    {
      this.tenant := tenant;
      statusModalOpen := false;
      statusAction := Suspend;
      terminationConfirmText, suspensionReason := "", "";
    }

    /** A danger-zone button: only offered actions have one; it records the action and opens the
        modal, keeping whatever text was typed before. */
    method OpenModal(a: AccessAction)
      requires a in DangerZoneOffered(tenant.status)
      modifies this`statusAction, this`statusModalOpen
      ensures statusAction == a && statusModalOpen
    {
      statusAction := a;
      statusModalOpen := true;
    }

    /** Cancel or dismiss: the modal closes; the action and the typed text stay. */
    method Cancel()
      modifies this`statusModalOpen
      ensures !statusModalOpen
    {
      statusModalOpen := false;
    }

    method TypeConfirmText(text: string)
      modifies this`terminationConfirmText
      ensures terminationConfirmText == text
    {
      terminationConfirmText := text;
    }

    /** Submit: enabled only past the gate. The handler checks no legality and sets the action's
        target; when the action is offered for the current status, which is how the modal is
        reached, this is exactly the lifecycle table's step. The modal closes and both texts are
        cleared; the recorded action is not reset. */
    method Submit()
      requires statusModalOpen && SubmitEnabled(statusAction, terminationConfirmText)
      modifies tenant, this`statusModalOpen, this`terminationConfirmText, this`suspensionReason
      ensures tenant.status == SubmitTarget(statusAction)
      ensures statusAction in DangerZoneOffered(old(tenant.status)) ==>
                Step(old(tenant.status), Request(statusAction, old(terminationConfirmText))) == Some(tenant.status)
      ensures !statusModalOpen && terminationConfirmText == "" && suspensionReason == ""
    {
      DangerZoneFollowsTable(tenant.status, statusAction, terminationConfirmText);
      tenant.status := SubmitTarget(statusAction);
      statusModalOpen := false;
      terminationConfirmText := "";
      suspensionReason := "";
    }
  }
}
