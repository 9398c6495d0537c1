# Classory admin console: a verified model of its logic

The console is a React single-page application used by an operator to manage one tenant (an
institution or a reseller partner) of a learning platform. Almost all of it is presentation; this
project models the parts that hold logic, as Dafny modules:

- `Wrappers`: `Option`, for a selection that may be absent and a lifecycle step that may fail.
- `Lifecycle`: the tenant status `Active | Suspended | Paused | Terminated` that the application
  shell holds and shares (class `Tenant`, starting `Active`). The table of which lifecycle action
  is legal in which status, where each action leads, and the gate that demands the literal
  `DELETE` before a termination. `Step` and `Run` replay operator requests through the menu flow.
- `Pricing`: the plan page's pricing engine. The base price comes from a rate table chosen by
  billing interval and client type. Overage is charged in started bundles above the tier base.
  Trial mode makes the total zero. The renewal preview is a fixed duration table plus 5% tax, kept
  in cents so that the tax is exact.
- `Ledger`: the subscription history, newest first. A renewal issues one pending invoice, and
  recording a payment marks every invoice with the chosen id paid.
- `PlanContent`: the plan page as a class `PlanPanel`. It holds the access modal (the first
  lifecycle controller), plan creation, the client-type switch and its effect that snaps the
  limits, the resource sliders, the renewal wizard, payment recording and the upgrade stepper.
  The menu rules are pure functions, proved against `Lifecycle`.
- `Settings`: the settings page's danger zone as a class `DangerZone`, the second lifecycle
  controller. It is proved to implement the same table as the access modal.
- `Users`: the user roster, with its case-insensitive search, its role and status filters, the
  statistics cards and add-user, which prepends an invited user.
- `AdminSetup`: the client-admin setup, a `list | form | success` step machine over an
  append-only list of admins.

State that the source changes in place is a class with fields, and each handler is a method whose
`modifies` clause names exactly the fields the handler sets. A `setTimeout` callback is modelled as
a separate method that runs atomically. The exception is admin creation: `CreateAdmin` runs at the
click and is the body of the delayed creation (see "## Left out"). `HandleRenewalTrigger` records
what its callback captured, and `FinishRenewal` runs the oldest such callback from those values.
`ResetRenewModal` schedules the wizard's return to review, and `FinishReset` is that callback.
Ids and dates that the source draws from `Math.random`, `Date.now` and the clock are parameters.

In these places the model follows the code, which may not be what a reader expects:

- Neither lifecycle handler checks legality. Legality comes only from which buttons are rendered,
  and there is no illegal-transition or not-found error path. `HandleAccessChange` and
  `DangerZone.Submit` therefore set the action's target unconditionally. They are proved equal to
  the table's step whenever the action is one the current status offers.
- `Terminated` is final only through the lifecycle menus (`TerminatedIsAbsorbing`). Plan creation
  and the completion of a trial activation set `Active` whatever the status was.
- The reseller effect depends only on the client type. It snaps the limits when the type changes,
  not when the same type is chosen again.
- Recording a payment for an id the history does not hold changes nothing and reports nothing
  (`MarkPaidUnknownId`); there is no not-found error.
- The delayed renewal commit works from the history, plan group, duration and trial flag of the
  render in which Send Invoice was clicked. The wizard can be dismissed while it processes. Any
  payment recorded or invoice issued before the commit fires is then overwritten
  (`LostPaymentDuringRenewal`).
- Closing the wizard returns it to review only 300 ms later, and the commit does not check
  whether the wizard is still open. A wizard dismissed while it processes and reopened after the
  commit shows the success screen (`DismissedRenewalReopensOnSuccess`). A commit that fires
  inside the 300 ms window ends on review instead (`CommitInsideResetWindow`).

## Model

| member | source | states |
|---|---|---|
| Lifecycle.Tenant.constructor | App.tsx:30-31 | the shared tenant status starts Active |
| Lifecycle.StepChangesStatus | components/PlanContent.tsx:964-1029 | no offered action leads back to the status it is offered in |
| Lifecycle.StepToTerminated | components/PlanContent.tsx:944-944 | a step reaches Terminated iff the tenant was live and the request is a termination confirmed with exactly `DELETE` |
| Lifecycle.RunAppend | components/PlanContent.tsx:162-177 | replaying two request sequences one after the other equals replaying their concatenation |
| Lifecycle.TerminatedIsAbsorbing | components/PlanContent.tsx:1014-1028 | through the menu flow no request goes through once the tenant is Terminated |
| Lifecycle.NoRequestAfterTermination | components/PlanContent.tsx:1014-1028 | after a run that terminates the tenant, any further non-empty run fails |
| Lifecycle.TerminationNeedsConfirmedDelete | components/PlanContent.tsx:944-944 | a live tenant ends Terminated only if some request was a termination typed with exactly `DELETE` |
| Lifecycle.SuspendThenTerminateRun | components/PlanContent.tsx:162-172 | worked run: suspend succeeds, pause is then refused, `delete` and `DELETE ` are refused, `DELETE` terminates |
| Pricing.CeilDiv | components/PlanContent.tsx:107-108 | the bundle count covers the extra units and one bundle fewer would not |
| Pricing.CeilDivIsLeast | components/PlanContent.tsx:107-108 | any bundle count that covers the units is at least the computed one |
| Pricing.CeilDivMonotone | components/PlanContent.tsx:107-108 | more extra units never need fewer bundles |
| Pricing.BundleRounding | components/PlanContent.tsx:107-108 | 1 or 100 extra students are one bundle and 101 are two; 1 or 5 extra teachers are one bundle and 6 are two |
| Pricing.GetPricingBreakdown | components/PlanContent.tsx:77-125 | extras and costs are non-negative; the renewal price is base plus the three costs; the total is 0 in trial mode and the renewal price otherwise, so 0 <= total <= renewal price |
| Pricing.OverageRules | components/PlanContent.tsx:101-109 | each extra is max(0, limit - tier base); student and teacher costs are started bundles times the rate; admin cost is extras times the rate |
| Pricing.BasePriceRules | components/PlanContent.tsx:78-99 | resellers pay 350 monthly or 3500 otherwise whatever the group; an unknown group is priced as Campus Starter; Institution Pro and Enterprise Elite have their own rates |
| Pricing.CustomBilledAsYearly | components/PlanContent.tsx:78-123 | a custom interval is priced exactly as yearly and labelled `/yr`; monthly is labelled `/mo` |
| Pricing.YearlyIsTenMonths | components/PlanContent.tsx:78-99 | for every non-monthly interval the renewal price is ten times the monthly one |
| Pricing.ResellerIgnoresPlanGroup | components/PlanContent.tsx:95-99 | for a reseller the plan group does not change any figure |
| Pricing.CostsMonotone | components/PlanContent.tsx:101-119 | raising limits never lowers any cost or the renewal price |
| Pricing.AtTierBaseNoExtras | components/PlanContent.tsx:57-74 | at the tier base the limits are in slider range, nothing is extra and the renewal price is the base price |
| Pricing.SliderRangeBoundsOverage | components/PlanContent.tsx:324-330 | inside the slider range each extra is at most four times the base, hence at most 80 student and 40 teacher bundles |
| Pricing.CampusStarterAtBase | components/PlanContent.tsx:77-125 | worked example: direct yearly Campus Starter at the base limits costs 1200 |
| Pricing.CampusStarterExtraStudents | components/PlanContent.tsx:101-119 | worked example: 550 students are 50 extra, one bundle at 50, total 1250 |
| Pricing.GetPreviewTotals | components/PlanContent.tsx:130-145 | subtotal is the duration price in cents, tax is exactly one twentieth of it, total is subtotal plus tax, i.e. 105% of the price |
| Pricing.PreviewTotalsTable | components/PlanContent.tsx:130-145 | totals 126.00, 682.50, 1260.00 and 2310.00, the last for two years and for any unnamed duration |
| Ledger.RenewalInvoice | components/PlanContent.tsx:196-207 | the issued invoice carries the given id, plan and date, is Pending, is a Creation iff from a trial and a Renewal otherwise, and is billed 105% of the duration price |
| Ledger.MarkPaid | components/PlanContent.tsx:231-235 | same length; each invoice with the id becomes Paid with every other field kept, every other invoice is unchanged |
| Ledger.PendingCount | types.ts:38-46 | the number of pending invoices: zero exactly when no invoice is pending, the whole history exactly when all are; the measure in which MarkPaidSettlesPending and PrependKeepsOlder are stated |
| Ledger.MarkPaidKeepsIds | components/PlanContent.tsx:231-235 | recording a payment adds, removes and reorders nothing |
| Ledger.MarkPaidIdempotent | components/PlanContent.tsx:231-235 | recording the same payment twice equals recording it once |
| Ledger.MarkPaidUnknownId | components/PlanContent.tsx:231-235 | an id not in the history leaves it unchanged |
| Ledger.MarkPaidSettlesPending | components/PlanContent.tsx:231-235 | a payment never adds a pending invoice, and removes at least one when the id names a pending invoice |
| Ledger.PrependKeepsOlder | components/PlanContent.tsx:208-208 | prepending puts the new invoice first, keeps every older one one place down, and adds one pending invoice iff the new one is pending |
| PlanContent.AccessMenuFollowsTable | components/PlanContent.tsx:162-172 | the access menu offers an action iff the lifecycle table allows it, confirm applies the table's target, and its gate is the table's gate |
| PlanContent.AccessMenuByStatus | components/PlanContent.tsx:964-1029 | Active offers pause, suspend and terminate; Paused resume and terminate; Suspended reactivate and terminate; Terminated nothing |
| PlanContent.PlanPanel.constructor | components/PlanContent.tsx:15-54 | the page starts without a plan, yearly, Campus Starter, direct, at 500/20/2, with the wizards at their first step and the two seeded invoices |
| PlanContent.PlanPanel.SetClientType | components/PlanContent.tsx:57-67 | a changed client type snaps the limits to the new tier base, after which nothing is extra and the renewal price is the base price; the same type leaves the limits alone |
| PlanContent.PlanPanel.SetLimit | components/PlanContent.tsx:324-330 | a slider sets one limit to a value from the tier base to five times it and keeps the others |
| PlanContent.PlanPanel.SetPlanGroup | components/PlanContent.tsx:380-383 | the plan group becomes the chosen one |
| PlanContent.PlanPanel.SetBillingInterval | components/PlanContent.tsx:446-446 | the billing interval becomes the chosen one |
| PlanContent.PlanPanel.ToggleTrialMode | components/PlanContent.tsx:402-402 | trial mode flips, and while it is on the total is 0 |
| PlanContent.PlanPanel.CreatePlanSubmit | components/PlanContent.tsx:147-150 | the tenant becomes Active from any status and has a plan |
| PlanContent.PlanPanel.OpenAccessModal | components/PlanContent.tsx:174-177 | the access modal opens on the menu |
| PlanContent.PlanPanel.CloseAccessModal | components/PlanContent.tsx:934-934 | dismissing only hides the modal |
| PlanContent.PlanPanel.ChooseAccessAction | components/PlanContent.tsx:972-1022 | only an offered action can be picked, and it opens its confirmation form |
| PlanContent.PlanPanel.BackToMenu | components/PlanContent.tsx:939-939 | Back returns to the menu |
| PlanContent.PlanPanel.TypeConfirmText | components/PlanContent.tsx:1079-1083 | the typed confirmation text is recorded |
| PlanContent.PlanPanel.HandleAccessChange | components/PlanContent.tsx:162-172 | the status becomes the action's target, which is the table's step whenever the action was offered; the modal closes on an empty menu with both texts cleared |
| PlanContent.PlanPanel.OpenRenewModal | components/PlanContent.tsx:152-155 | Renew Plan and Activate Subscription both open the renewal wizard |
| PlanContent.PlanPanel.SelectDuration | components/PlanContent.tsx:858-860 | the chosen duration is recorded |
| PlanContent.PlanPanel.PreviewInvoice | components/PlanContent.tsx:837-837 | review moves to preview |
| PlanContent.PlanPanel.BackToReview | components/PlanContent.tsx:841-841 | preview moves back to review |
| PlanContent.PlanPanel.HandleRenewalTrigger | components/PlanContent.tsx:191-196 | Send Invoice moves preview to processing and starts one commit, which holds the history, plan group, duration and trial flag of that moment |
| PlanContent.PlanPanel.FinishRenewal | components/PlanContent.tsx:196-217 | the oldest commit sets the history to exactly one pending invoice for the captured plan group and duration, followed by the captured history; the wizard shows success; a commit started in trial mode ends the trial with the tenant Active |
| PlanContent.LostPaymentDuringRenewal | components/PlanContent.tsx:196-208 | a pending invoice marked paid while a renewal processes is pending again once the renewal completes |
| PlanContent.PlanPanel.ResetRenewModal | components/PlanContent.tsx:220-222 | closing the wizard hides it at once, leaves its step as it is and schedules one more return to review |
| PlanContent.PlanPanel.FinishReset | components/PlanContent.tsx:222-222 | a scheduled return fires: the wizard is on review whatever step it had reached, and one fewer return is pending |
| PlanContent.DismissedRenewalReopensOnSuccess | components/PlanContent.tsx:191-223 | dismissed while processing, with the reset firing before the commit, the wizard reopened after the commit shows the success screen |
| PlanContent.CommitInsideResetWindow | components/PlanContent.tsx:191-223 | a commit firing inside the reset window ends on review, with no commit or reset left pending |
| PlanContent.PlanPanel.OpenRecordPayment | components/PlanContent.tsx:226-229 | the row's id is selected and the payment modal opens |
| PlanContent.PlanPanel.CloseRecordPayment | components/PlanContent.tsx:1501-1509 | Cancel or dismiss only hides the payment modal |
| PlanContent.PlanPanel.ConfirmPayment | components/PlanContent.tsx:231-239 | with a non-empty selection every matching invoice is marked paid, the modal closes and the selection clears; otherwise nothing changes |
| PlanContent.PlanPanel.SelectUpgradeGroup | components/PlanContent.tsx:1242-1244 | the chosen upgrade group is recorded |
| PlanContent.PlanPanel.UpgradeNext | components/PlanContent.tsx:1336-1346 | below step 4 Next advances one step and the stepper stays within 1..4 |
| PlanContent.PlanPanel.UpgradeBack | components/PlanContent.tsx:1336-1340 | Back goes one step down, never below 1 and never from step 4 |
| PlanContent.PlanPanel.ReturnToDashboard | components/PlanContent.tsx:1330-1330 | from step 4 the only way on is back to step 1 |
| Settings.DangerZoneFollowsTable | components/SettingsContent.tsx:17-26 | the danger zone offers an action iff the table allows it, submit applies the table's target, and its gate is the table's gate |
| Settings.ControllersAgree | components/SettingsContent.tsx:17-21 | in every status the danger zone and the access modal offer the same actions, lead to the same status and pass the same texts |
| Settings.DangerZoneByStatus | components/SettingsContent.tsx:147-251 | Active offers pause, suspend and terminate; Paused resume and terminate; Suspended reactivate and terminate; Terminated nothing |
| Settings.DangerZone.constructor | components/SettingsContent.tsx:11-15 | the modal starts closed on suspend with both texts empty |
| Settings.DangerZone.OpenModal | components/SettingsContent.tsx:28-31 | only an offered action has a button; it records the action and opens the modal, and the status does not change |
| Settings.DangerZone.Cancel | components/SettingsContent.tsx:259-268 | Cancel or dismiss closes the modal without changing the status |
| Settings.DangerZone.TypeConfirmText | components/SettingsContent.tsx:342-342 | the typed confirmation text is recorded |
| Settings.DangerZone.Submit | components/SettingsContent.tsx:17-26 | the status becomes the action's target, which is the table's step whenever the action was offered; the modal closes, both texts are cleared, the action is kept |
| Users.LowerChar | components/UserContent.tsx:65-67 | ASCII capitals are folded, everything else is kept, and no capital remains |
| Users.Lower | components/UserContent.tsx:65-67 | same length, each character lower-cased |
| Users.LowerIdempotent | components/UserContent.tsx:65-67 | lower-casing twice equals lower-casing once |
| Users.FilterUsers | components/UserContent.tsx:64-72 | a user is shown iff it is in the roster and the search, role and status filters all accept it, as many times as it occurs in the roster; never more rows than users |
| Users.FilterKeepsOrder | components/UserContent.tsx:64-72 | the rows shown are a subsequence of the roster, in its order |
| Users.EmptyQueryMatches | components/UserContent.tsx:65-67 | the empty query matches every user |
| Users.NoFilterShowsAll | components/UserContent.tsx:64-72 | with an empty query and both filters on All the table shows exactly the roster |
| Users.SearchIgnoresCase | components/UserContent.tsx:65-67 | a query and its lower-cased form match the same users |
| Users.CountRole | components/UserContent.tsx:107-116 | a role count never exceeds the number of users |
| Users.CountRoleIsRoleFilter | components/UserContent.tsx:107-116 | a role card counts exactly the rows the role filter alone shows |
| Users.RoleCountsWithinTotal | components/UserContent.tsx:98-116 | the three role counts add up to the total, so Students plus Teachers never exceed Total Users |
| Users.NewUserRecord | components/UserContent.tsx:75-84 | the new user has the given id, first and last name joined by one space, the form's email, role and id number, status Invited and join date `-` |
| Users.AddUserCounts | components/UserContent.tsx:85-85 | adding a user raises exactly its role's count, by one |
| Users.MockUsersFigures | components/UserContent.tsx:41-48 | the page starts with six users, three students and two teachers |
| Users.UserRoster.constructor | components/UserContent.tsx:51-61 | the roster starts with the six users, an empty query, both filters on All, both modals closed and an empty form |
| Users.UserRoster.Figures | components/UserContent.tsx:98-116 | the cards show the total and the student and teacher counts, whose sum is at most the total, and the footer shows at most the total |
| Users.UserRoster.SetSearchQuery | components/UserContent.tsx:137-137 | the query is recorded |
| Users.UserRoster.SetRoleFilter | components/UserContent.tsx:142-150 | the role filter is recorded |
| Users.UserRoster.SetStatusFilter | components/UserContent.tsx:151-159 | the status filter is recorded |
| Users.UserRoster.OpenAddUser | components/UserContent.tsx:172-172 | the add-user modal opens |
| Users.UserRoster.CloseAddUser | components/UserContent.tsx:265-269 | Cancel or dismiss hides the modal and keeps the form |
| Users.UserRoster.EditNewUser | components/UserContent.tsx:280-308 | the form is recorded |
| Users.UserRoster.HandleAddUser | components/UserContent.tsx:74-88 | the new user is prepended before the unchanged roster, the length grows by one, the modal closes and the form is reset with role Student |
| Users.UserRoster.OpenImport | components/UserContent.tsx:166-166 | the import modal opens |
| Users.UserRoster.CloseImport | components/UserContent.tsx:325-330 | Cancel, dismiss and Start Import only close the import modal |
| AdminSetup.NewAdmin | components/BasicDetailsContent.tsx:78-87 | the new admin copies the form's names, email and phone, is a Client Admin, is Invited, and never stores the password |
| AdminSetup.CancelTarget | components/BasicDetailsContent.tsx:454-454 | Cancel leads to the list iff at least one admin exists, otherwise the form stays |
| AdminSetup.AdminSetupPanel.constructor | components/BasicDetailsContent.tsx:58-68 | the section starts on the form with no admins and an empty form |
| AdminSetup.AdminSetupPanel.EditForm | components/BasicDetailsContent.tsx:333-430 | the form is recorded |
| AdminSetup.AdminSetupPanel.CreateAdmin | components/BasicDetailsContent.tsx:76-91 | one admin built from the form is appended after the unchanged existing ones, and the success screen shows |
| AdminSetup.AdminSetupPanel.AddNewClick | components/BasicDetailsContent.tsx:93-96 | all form fields are cleared and the form shows; the admins stay |
| AdminSetup.AdminSetupPanel.Cancel | components/BasicDetailsContent.tsx:454-454 | Cancel on the form goes to the list iff there is an admin |
| AdminSetup.AdminSetupPanel.Done | components/BasicDetailsContent.tsx:304-304 | Done on the success screen shows the list; no view other than the form is ever reached without an admin |

## Left out

- Rendering, styling, icons, the header's fixed status badge, the sidebar, tab routing, dark mode and the overview page's charts: presentation only.
- Unmounting on tab switch: switching tabs discards a page's local state and the model keeps it; only the shared status outlives a page.
- Timers as time: each delayed callback is one atomic step, and any pending callback may fire next. Renewal commits fire in the order they were started, since they share one delay; the model does not bound how far apart the callbacks fire.
- AdminSetup.AdminSetupPanel.CreateAdmin: the creation runs at the click, with the admins and form of that moment. In the source the form can still be edited, cancelled or submitted again during the 500 ms delay, and the callback then still uses the captured values; a second click inside the delay replaces the first admin rather than adding another. Those interleavings are not modelled.
- Ids, dates and amounts as text: ids from `Math.random` and `Date.now`, dates from the clock and the locale formatting are parameters. The invoice amount is kept in cents, not as the `$`-prefixed string the source stores.
- PlanContent.PlanPanel.SetLimit: the sliders also move in steps of 50 students, 5 teachers and 1 admin; the model accepts any value in the range.
- Users.LowerChar, Users.Lower: only ASCII capitals are folded; Unicode case mapping is not modelled.
- Plan groups and durations stay strings, because their fallback branches matter. The JavaScript lookup of a plan group that names an object prototype member (such as `constructor`) is not modelled.
- The suspension reason is never bound to its text area, so no reason is validated; the model only clears it.
- Trial length, the product package, the send-invoice-email switch, the edit-configuration modal, the add-on quantity buttons, the proration figures and fixed tax line of the upgrade and review screens, the fallback-plan screen, the bulk-import upload and the password-mode switch hold no logic beyond display.
- The developer button that switches the page back to creation mode, and `OverviewContent`, `FormElements`, `Header` and `Sidebar`, are not part of this model.
