/** The plan page: its access modal (one of the two lifecycle controllers), plan creation, the
    client-type switch and resource sliders that feed the pricing engine, the renewal wizard that
    issues invoices, payment recording, and the upgrade stepper. */
module PlanContent {
  import opened Wrappers
  import opened Lifecycle
  import opened Pricing
  import opened Ledger

  /** What the access modal shows: the action menu, or the confirmation form of one action. */
  datatype AccessView = Menu | Confirming(action: AccessAction)

  /** The steps of the renewal wizard. */
  datatype RenewStep = Review | Preview | Processing | Success

  /** What a renewal commit works from: the values of the render in which Send Invoice was
      clicked. The delayed commit reads these, not the state at the time it fires. */
  datatype RenewalSnapshot = RenewalSnapshot(history: seq<Invoice>, plan: string, duration: string, isTrial: bool)

  /** The three resource sliders. */
  datatype Resource = Students | Teachers | Admins

  /** The access modal's menu: pause and suspend for an active tenant, resume for a paused one,
      reactivate for a suspended one, terminate for any tenant not yet terminated. */
  function AccessMenuOffered(s: TenantStatus): set<AccessAction>
  {
    (if s == Active then {Pause, Suspend} else {}) +
    (if s == Paused then {Resume} else {}) +
    (if s == Suspended then {Activate} else {}) +
    (if s != Terminated then {Terminate} else {})
  }

  /** The status the access modal's confirm button sets for each action. */
  function AccessTarget(a: AccessAction): TenantStatus
  {
    if a == Suspend then Suspended
    else if a == Pause then Paused
    else if a == Resume || a == Activate then Active
    else Terminated
  }

  /** The confirm button is disabled only on the termination form while the typed text is not
      exactly the confirmation literal. */
  predicate AccessConfirmEnabled(view: AccessView, text: string)
  {
    !(view == Confirming(Terminate) && text != DeleteConfirmation)
  }

  /** The access modal implements the lifecycle table: it offers exactly the legal actions, its
      confirm button applies the table's target, and its gate is the table's gate. */
  lemma AccessMenuFollowsTable(s: TenantStatus, a: AccessAction, text: string)
    ensures a in AccessMenuOffered(s) <==> Legal(s, a)
    ensures AccessTarget(a) == Target(a)
    ensures AccessConfirmEnabled(Confirming(a), text) <==> ConfirmGate(a, text)
  {
  }

  /** A terminated tenant is shown no action at all; every other status is shown termination
      and exactly one way onward or back. */
  lemma AccessMenuByStatus()
    ensures AccessMenuOffered(Active) == {Pause, Suspend, Terminate}
    ensures AccessMenuOffered(Paused) == {Resume, Terminate}
    ensures AccessMenuOffered(Suspended) == {Activate, Terminate}
    ensures AccessMenuOffered(Terminated) == {}
  {
  }

  /** JavaScript truthiness of the selected invoice id: absent and the empty string both count as
      no selection. */
  predicate HasSelection(sel: Option<string>)
  {
    sel.Some? && sel.value != ""
  }

  class PlanPanel {
    /** The status lifted into the application shell; the settings page holds the same object. */
    const tenant: Tenant

    var hasPlan: bool
    var isTrialMode: bool
    var billingInterval: BillingInterval
    var planGroup: string
    var isReseller: bool
    var studentLimit: int
    var teacherLimit: int
    var adminLimit: int

    var renewModalOpen: bool
    var renewStep: RenewStep
    var selectedDuration: string
    /** Renewal commits started and not yet completed, oldest first: their timers are still
        running, and all have the same delay, so they fire in this order. */
    var pendingRenewals: seq<RenewalSnapshot>
    /** Deferred returns to the review step, scheduled by closing the wizard and not yet fired. */
    var pendingResets: nat

    var accessModalOpen: bool
    var accessView: AccessView
    var suspensionReason: string
    var terminationConfirmText: string

    var history: seq<Invoice>
    var selectedInvoiceId: Option<string>
    var recordPaymentModalOpen: bool

    var upgradeStep: int
    var selectedUpgradeGroup: string

    /** The plan the pricing engine prices. */
    function Config(): PlanConfig
      reads this
    {
      PlanConfig(billingInterval, planGroup, isReseller, studentLimit, teacherLimit, adminLimit, isTrialMode)
    }

    /** The included amount of a resource for the current client type: the slider's minimum. */
    function SliderBase(r: Resource): int
      reads this
    {
      var base := TierBase(isReseller);
      match r
      case Students => base.students
      case Teachers => base.teachers
      case Admins => base.admins
    }

    /** The limits are within their sliders, and the upgrade stepper is on one of its four steps. */
    ghost predicate Valid()
      reads this
    {
      WithinSliderRange(Config()) && 1 <= upgradeStep <= 4
    }

    constructor (tenant: Tenant)
      ensures this.tenant == tenant && Valid()
      ensures !hasPlan && !isTrialMode && billingInterval == Yearly && planGroup == "Campus Starter"
      ensures !isReseller && studentLimit == 500 && teacherLimit == 20 && adminLimit == 2
      ensures !renewModalOpen && renewStep == Review && selectedDuration == "1 Year"
      ensures pendingRenewals == [] && pendingResets == 0
      ensures !accessModalOpen && accessView == Menu && suspensionReason == "" && terminationConfirmText == ""
      ensures history == SeedHistory() && selectedInvoiceId == None && !recordPaymentModalOpen
      ensures upgradeStep == 1 && selectedUpgradeGroup == ""
    {
      this.tenant := tenant;
      hasPlan, isTrialMode := false, false;
      billingInterval, planGroup := Yearly, "Campus Starter";
      isReseller := false;
      studentLimit, teacherLimit, adminLimit := 500, 20, 2;
      renewModalOpen, renewStep, selectedDuration := false, Review, "1 Year";
      pendingRenewals, pendingResets := [], 0;
      accessModalOpen, accessView, suspensionReason, terminationConfirmText := false, Menu, "", "";
      history, selectedInvoiceId, recordPaymentModalOpen := SeedHistory(), None, false;
      upgradeStep, selectedUpgradeGroup := 1, "";
    }

    /** Choosing a client type. The effect that snaps the limits runs only when the type actually
        changes; then every limit is at the new tier base, so nothing is extra and the subtotal is
        the base price. */
    method SetClientType(reseller: bool)
      requires Valid()
      modifies this`isReseller, this`studentLimit, this`teacherLimit, this`adminLimit
      ensures Valid() && isReseller == reseller
      ensures old(isReseller) != reseller ==>
                studentLimit == TierBase(reseller).students &&
                teacherLimit == TierBase(reseller).teachers &&
                adminLimit == TierBase(reseller).admins
      ensures old(isReseller) == reseller ==>
                studentLimit == old(studentLimit) && teacherLimit == old(teacherLimit) && adminLimit == old(adminLimit)
      ensures old(isReseller) != reseller ==>
                var r := GetPricingBreakdown(Config());
                r.extraStudents == 0 && r.extraTeachers == 0 && r.extraAdmins == 0 &&
                r.studentCost == 0 && r.teacherCost == 0 && r.adminCost == 0 &&
                r.futureRenewalPrice == r.basePrice
    {
      if reseller != isReseller {
        isReseller := reseller;
        var base := TierBase(reseller);
        studentLimit, teacherLimit, adminLimit := base.students, base.teachers, base.admins;
        AtTierBaseNoExtras(Config());
      }
    }

    /** A resource slider: it only produces values from the tier base to five times it. */
    method SetLimit(r: Resource, v: int)
      requires Valid()
      requires SliderBase(r) <= v <= 5 * SliderBase(r)
      modifies this`studentLimit, this`teacherLimit, this`adminLimit
      ensures Valid()
      ensures studentLimit == (if r == Students then v else old(studentLimit))
      ensures teacherLimit == (if r == Teachers then v else old(teacherLimit))
      ensures adminLimit == (if r == Admins then v else old(adminLimit))
    {
      match r
      case Students => studentLimit := v;
      case Teachers => teacherLimit := v;
      case Admins => adminLimit := v;
    }

    method SetPlanGroup(g: string)
      requires Valid()
      modifies this`planGroup
      ensures Valid() && planGroup == g
    {
      planGroup := g;
    }

    method SetBillingInterval(i: BillingInterval)
      requires Valid()
      modifies this`billingInterval
      ensures Valid() && billingInterval == i
    {
      billingInterval := i;
    }

    /** The free-trial switch; while it is on the plan costs nothing now. */
    method ToggleTrialMode()
      requires Valid()
      modifies this`isTrialMode
      ensures Valid() && isTrialMode == !old(isTrialMode)
      ensures isTrialMode ==> GetPricingBreakdown(Config()).total == 0
    {
      isTrialMode := !isTrialMode;
    }

    /** Assigning the plan: whatever the status was, even Terminated, the tenant becomes Active
        and has a plan. */
    method CreatePlanSubmit()
      requires Valid()
      modifies tenant, this`hasPlan
      ensures Valid() && tenant.status == Active && hasPlan
    {
      tenant.status := Active;
      hasPlan := true;
    }

    /** Opening the access modal (from Manage Access, Resume or Unsuspend) always shows the menu. */
    method OpenAccessModal()
      requires Valid()
      modifies this`accessView, this`accessModalOpen
      ensures Valid() && accessModalOpen && accessView == Menu
    {
      accessView := Menu;
      accessModalOpen := true;
    }

    /** Dismissing the modal only hides it; the chosen action and the typed text stay. */
    method CloseAccessModal()
      requires Valid()
      modifies this`accessModalOpen
      ensures Valid() && !accessModalOpen
    {
      accessModalOpen := false;
    }

    /** Picking an action from the menu; the menu shows only the actions offered for the status. */
    method ChooseAccessAction(a: AccessAction)
      requires Valid()
      requires accessModalOpen && accessView == Menu && a in AccessMenuOffered(tenant.status)
      modifies this`accessView
      ensures Valid() && accessView == Confirming(a)
    {
      accessView := Confirming(a);
    }

    method BackToMenu()
      requires Valid()
      modifies this`accessView
      ensures Valid() && accessView == Menu
    {
      accessView := Menu;
    }

    method TypeConfirmText(text: string)
      requires Valid()
      modifies this`terminationConfirmText
      ensures Valid() && terminationConfirmText == text
    {
      terminationConfirmText := text;
    }

    /** The access modal's confirm button: it exists only on a confirmation form and is enabled
        only past the gate. The handler itself checks no legality: it sets the action's target.
        When the action was offered for the current status, which is how the form is reached,
        this is exactly the lifecycle table's step. The modal closes back to an empty menu. */
    method HandleAccessChange()
      requires Valid()
      requires accessModalOpen && accessView.Confirming?
      requires AccessConfirmEnabled(accessView, terminationConfirmText)
      modifies tenant, this`accessModalOpen, this`accessView, this`suspensionReason, this`terminationConfirmText
      ensures Valid()
      ensures tenant.status == AccessTarget(old(accessView).action)
      ensures old(accessView).action in AccessMenuOffered(old(tenant.status)) ==>
                Step(old(tenant.status), Request(old(accessView).action, old(terminationConfirmText))) == Some(tenant.status)
      ensures !accessModalOpen && accessView == Menu && suspensionReason == "" && terminationConfirmText == ""
    {
      var a := accessView.action;
      AccessMenuFollowsTable(tenant.status, a, terminationConfirmText);
      tenant.status := AccessTarget(a);
      accessModalOpen := false;
      accessView := Menu;
      suspensionReason := "";
      terminationConfirmText := "";
    }

    /** Renew Plan, and Activate Subscription for a trial, both open the renewal wizard. */
    method OpenRenewModal()
      requires Valid()
      modifies this`renewModalOpen
      ensures Valid() && renewModalOpen
    {
      renewModalOpen := true;
    }

    method SelectDuration(d: string)
      requires Valid()
      modifies this`selectedDuration
      ensures Valid() && selectedDuration == d
    {
      selectedDuration := d;
    }

    method PreviewInvoice()
      requires Valid() && renewStep == Review
      modifies this`renewStep
      ensures Valid() && renewStep == Preview
    {
      renewStep := Preview;
    }

    method BackToReview()
      requires Valid() && renewStep == Preview
      modifies this`renewStep
      ensures Valid() && renewStep == Review
    {
      renewStep := Review;
    }

    /** Send Invoice: the wizard shows the processing step and a commit is started, holding the
        history, plan group, duration and trial flag of this moment. */
    method HandleRenewalTrigger()
      requires Valid() && renewStep == Preview
      modifies this`renewStep, this`pendingRenewals
      ensures Valid() && renewStep == Processing
      ensures pendingRenewals ==
                old(pendingRenewals) + [RenewalSnapshot(history, planGroup, selectedDuration, isTrialMode)]
    {
      renewStep := Processing;
      pendingRenewals := pendingRenewals + [RenewalSnapshot(history, planGroup, selectedDuration, isTrialMode)];
    }

    /** The oldest renewal commit completes. The history becomes exactly one pending invoice, for
        the plan group and duration of the click, followed by the history as it was at the click:
        an invoice added or a payment recorded in between is lost. The wizard shows success, and if
        the click was made in trial mode the trial ends with the tenant Active. The invoice id and
        date come from outside. */
    method FinishRenewal(id: string, date: string)
      requires Valid() && |pendingRenewals| > 0
      modifies tenant, this`history, this`renewStep, this`isTrialMode, this`pendingRenewals
      ensures Valid()
      ensures var snap := old(pendingRenewals[0]);
              history == [RenewalInvoice(id, snap.plan, date, snap.duration, snap.isTrial)] + snap.history
      ensures renewStep == Success && pendingRenewals == old(pendingRenewals[1..])
      ensures isTrialMode == if old(pendingRenewals[0]).isTrial then false else old(isTrialMode)
      ensures tenant.status == if old(pendingRenewals[0]).isTrial then Active else old(tenant.status)
    {
      var snap := pendingRenewals[0];
      history := [RenewalInvoice(id, snap.plan, date, snap.duration, snap.isTrial)] + snap.history;
      renewStep := Success;
      if snap.isTrial {
        isTrialMode := false;
        tenant.status := Active;
      }
      pendingRenewals := pendingRenewals[1..];
    }

    /** Closing the wizard (Cancel, Done or dismiss) hides it at once and schedules its return to
        the review step; the step itself is left as it is until that timer fires. */
    method ResetRenewModal()
      requires Valid()
      modifies this`renewModalOpen, this`pendingResets
      ensures Valid() && !renewModalOpen && renewStep == old(renewStep)
      ensures pendingResets == old(pendingResets) + 1
    {
      renewModalOpen := false;
      pendingResets := pendingResets + 1;
    }

    /** A scheduled reset fires: the wizard is on the review step, whatever step it had reached,
        and one fewer reset is pending. */
    method FinishReset()
      requires Valid() && pendingResets > 0
      modifies this`renewStep, this`pendingResets
      ensures Valid() && renewStep == Review
      ensures pendingResets == old(pendingResets) - 1
    {
      renewStep := Review;
      pendingResets := pendingResets - 1;
    }

    /** Record Payment on a history row selects its id and opens the payment modal. */
    method OpenRecordPayment(id: string)
      requires Valid()
      modifies this`selectedInvoiceId, this`recordPaymentModalOpen
      ensures Valid() && selectedInvoiceId == Some(id) && recordPaymentModalOpen
    {
      selectedInvoiceId := Some(id);
      recordPaymentModalOpen := true;
    }

    method CloseRecordPayment()
      requires Valid()
      modifies this`recordPaymentModalOpen
      ensures Valid() && !recordPaymentModalOpen
    {
      recordPaymentModalOpen := false;
    }

    /** Confirm & Mark Paid: with a selection, every invoice with that id is marked paid and the
        modal closes with the selection cleared; without one nothing happens. */
    method ConfirmPayment()
      requires Valid()
      modifies this`history, this`recordPaymentModalOpen, this`selectedInvoiceId
      ensures Valid()
      ensures HasSelection(old(selectedInvoiceId)) ==>
                history == MarkPaid(old(history), old(selectedInvoiceId).value) &&
                !recordPaymentModalOpen && selectedInvoiceId == None
      ensures !HasSelection(old(selectedInvoiceId)) ==>
                history == old(history) && recordPaymentModalOpen == old(recordPaymentModalOpen) &&
                selectedInvoiceId == old(selectedInvoiceId)
    {
      if HasSelection(selectedInvoiceId) {
        history := MarkPaid(history, selectedInvoiceId.value);
        recordPaymentModalOpen := false;
        selectedInvoiceId := None;
      }
    }

    method SelectUpgradeGroup(g: string)
      requires Valid()
      modifies this`selectedUpgradeGroup
      ensures Valid() && selectedUpgradeGroup == g
    {
      selectedUpgradeGroup := g;
    }

    /** Next Step (Confirm & Apply on step 3): the footer is shown only below step 4. */
    method UpgradeNext()
      requires Valid() && upgradeStep < 4
      modifies this`upgradeStep
      ensures Valid() && upgradeStep == old(upgradeStep) + 1
    {
      upgradeStep := upgradeStep + 1;
    }

    /** Back: disabled on step 1, and absent on step 4. */
    method UpgradeBack()
      requires Valid() && 1 < upgradeStep < 4
      modifies this`upgradeStep
      ensures Valid() && upgradeStep == old(upgradeStep) - 1
    {
      upgradeStep := upgradeStep - 1;
    }

    /** From the confirmation step the only way on is back to step 1. */
    method ReturnToDashboard()
      requires Valid() && upgradeStep == 4
      modifies this`upgradeStep
      ensures Valid() && upgradeStep == 1
    {
      upgradeStep := 1;
    }
  }
  /** A payment recorded while a renewal is processing is undone when the renewal completes. The
      newest invoice is pending and a renewal is sent; its wizard is dismissed while it processes,
      and the invoice is marked paid. When the commit fires it writes back the history of its
      click, in which that invoice is still pending. */
  method LostPaymentDuringRenewal(panel: PlanPanel, id: string, newId: string, date: string)
    returns (afterPayment: InvoiceStatus, afterRenewal: InvoiceStatus)
    requires panel.Valid() && panel.renewStep == Preview && panel.pendingRenewals == []
    requires |panel.history| > 0 && panel.history[0].id == id && id != "" && panel.history[0].status == Pending
    modifies panel, panel.tenant
    ensures afterPayment == Paid && afterRenewal == Pending
  {
    panel.HandleRenewalTrigger();
    panel.ResetRenewModal();
    panel.OpenRecordPayment(id);
    panel.ConfirmPayment();
    afterPayment := panel.history[0].status;
    assert panel.pendingRenewals[0].history[0].status == Pending;
    panel.FinishRenewal(newId, date);
    afterRenewal := panel.history[1].status;
  }

  /** A wizard dismissed while it processes reopens on the success screen: the reset fires
      first, 300 ms after the dismissal, and the commit, 2 s after the click, fires last. */
  method DismissedRenewalReopensOnSuccess(panel: PlanPanel, id: string, date: string)
    returns (step: RenewStep)
    requires panel.Valid() && panel.renewStep == Preview
    requires panel.pendingRenewals == [] && panel.pendingResets == 0
    modifies panel, panel.tenant
    ensures step == Success && panel.renewModalOpen
  {
    panel.HandleRenewalTrigger();
    panel.ResetRenewModal();
    panel.FinishReset();
    panel.FinishRenewal(id, date);
    panel.OpenRenewModal();
    step := panel.renewStep;
  }

  /** A commit that fires inside the 300 ms window after a dismissal has its success screen
      replaced by the review step when the reset fires. */
  method CommitInsideResetWindow(panel: PlanPanel, id: string, date: string)
    returns (step: RenewStep)
    requires panel.Valid() && panel.renewStep == Preview
    requires panel.pendingRenewals == [] && panel.pendingResets == 0
    modifies panel, panel.tenant
    ensures step == Review && panel.pendingRenewals == [] && panel.pendingResets == 0
  {
    panel.HandleRenewalTrigger();
    panel.ResetRenewModal();
    panel.FinishRenewal(id, date);
    panel.FinishReset();
    step := panel.renewStep;
  }
}
