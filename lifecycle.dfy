/** The tenant lifecycle: the one status the application shell holds and shares with the plan page
    and the settings page, the table of actions legal in each status, and the confirm gate. */
module Lifecycle {
  import opened Wrappers

  datatype TenantStatus = Active | Suspended | Paused | Terminated

  /** The lifecycle actions both controllers (the plan page's access modal and the settings
      page's danger zone) can confirm. */
  datatype AccessAction = Suspend | Pause | Resume | Activate | Terminate

  /** The literal an operator must type, case and spacing exactly, before a termination. */
  const DeleteConfirmation: string := "DELETE"

  /** The shared status. It starts Active; both pages write it through the same setter. */
  class Tenant {
    var status: TenantStatus

    constructor ()
      ensures status == Active
    {
      status := Active;
    }
  }

  /** The transition table: which action may be offered while the tenant is in status s. */
  predicate Legal(s: TenantStatus, a: AccessAction)
  {
    match a
    case Pause => s == Active
    case Suspend => s == Active
    case Resume => s == Paused
    case Activate => s == Suspended
    case Terminate => s != Terminated
  }

  /** The status a confirmed action leads to. */
  function Target(a: AccessAction): TenantStatus
  {
    match a
    case Suspend => Suspended
    case Pause => Paused
    case Resume => Active
    case Activate => Active
    case Terminate => Terminated
  }

  /** The confirm button is enabled unless the action is a termination whose typed text is not
      exactly the confirmation literal. */
  predicate ConfirmGate(a: AccessAction, text: string)
  {
    a == Terminate ==> text == DeleteConfirmation
  }

  /** One operator request through a lifecycle controller: the chosen action and the typed text. */
  datatype Request = Request(action: AccessAction, confirmText: string)

  /** The menu flow as one step: a request goes through only when its action is offered in the
      current status and its confirm button is enabled. */
  function Step(s: TenantStatus, req: Request): Option<TenantStatus>
  {
    if Legal(s, req.action) && ConfirmGate(req.action, req.confirmText) then Some(Target(req.action))
    else None
  }

  /** A sequence of requests through the menu flow; None as soon as one of them cannot go through. */
  function Run(s: TenantStatus, reqs: seq<Request>): Option<TenantStatus>
    decreases |reqs|
  {
    if reqs == [] then Some(s)
    else
      match Step(s, reqs[0])
      case None => None
      case Some(next) => Run(next, reqs[1..])
  }

  /** Every request that goes through changes the status: no action is offered that leads back to
      the status it is offered in. */
  lemma StepChangesStatus(s: TenantStatus, req: Request)
    ensures Step(s, req).Some? ==> Step(s, req).value != s
  {
  }

  /** Exactly the termination with the confirmation literal reaches Terminated, from every status
      other than Terminated itself. */
  lemma StepToTerminated(s: TenantStatus, req: Request)
    ensures Step(s, req) == Some(Terminated) <==>
              s != Terminated && req.action == Terminate && req.confirmText == DeleteConfirmation
  {
  }

  /** Running two request sequences one after the other is running their concatenation. */
  lemma {:induction false} RunAppend(s: TenantStatus, first: seq<Request>, second: seq<Request>)
    ensures Run(s, first + second) ==
              match Run(s, first)
              case None => None
              case Some(mid) => Run(mid, second)
    decreases |first|
  {
    if first == [] {
      assert first + second == second;
    } else {
      assert (first + second)[0] == first[0];
      assert (first + second)[1..] == first[1..] + second;
      match Step(s, first[0])
      case None =>
      case Some(next) =>
        RunAppend(next, first[1..], second);
    }
  }

  /** Through the menu flow a terminated tenant is final: no request goes through. */
  lemma TerminatedIsAbsorbing(reqs: seq<Request>)
    ensures Run(Terminated, reqs) == if reqs == [] then Some(Terminated) else None
  {
    if reqs != [] {
      assert Step(Terminated, reqs[0]) == None;
    }
  }

  /** Once a run of requests has terminated the tenant, any further request fails. */
  lemma NoRequestAfterTermination(s: TenantStatus, first: seq<Request>, second: seq<Request>)
    requires Run(s, first) == Some(Terminated)
    ensures Run(s, first + second) == if second == [] then Some(Terminated) else None
  {
    RunAppend(s, first, second);
    TerminatedIsAbsorbing(second);
  }

  /** A live tenant ends up Terminated only if some request in the run was a termination
      confirmed with the literal. */
  lemma {:induction false} TerminationNeedsConfirmedDelete(s: TenantStatus, reqs: seq<Request>)
    requires s != Terminated
    requires Run(s, reqs) == Some(Terminated)
    ensures exists i :: 0 <= i < |reqs| && reqs[i] == Request(Terminate, DeleteConfirmation)
    decreases |reqs|
  {
    assert reqs != [];
    var next := Step(s, reqs[0]).value;
    if next == Terminated {
      StepToTerminated(s, reqs[0]);
      assert reqs[0] == Request(Terminate, DeleteConfirmation);
    } else {
      TerminationNeedsConfirmedDelete(next, reqs[1..]);
      var i :| 0 <= i < |reqs[1..]| && reqs[1..][i] == Request(Terminate, DeleteConfirmation);
      assert reqs[i + 1] == Request(Terminate, DeleteConfirmation);
    }
  }

  /** Worked run: suspending an active tenant with a reason succeeds; pausing it afterwards is not
      offered; terminating with lower-case text is refused and with the literal succeeds. */
  lemma SuspendThenTerminateRun()
    ensures Run(Active, [Request(Suspend, "")]) == Some(Suspended)
    ensures Run(Active, [Request(Suspend, ""), Request(Pause, "")]) == None
    ensures Step(Suspended, Request(Terminate, "delete")) == None
    ensures Step(Suspended, Request(Terminate, "DELETE ")) == None
    ensures Run(Active, [Request(Suspend, ""), Request(Terminate, DeleteConfirmation)]) == Some(Terminated)
  {
    assert "delete" != DeleteConfirmation by { assert "delete"[0] != DeleteConfirmation[0]; }
    assert |"DELETE "| != |DeleteConfirmation|;
    var two := [Request(Suspend, ""), Request(Pause, "")];
    assert two[1..] == [Request(Pause, "")];
    var kill := [Request(Suspend, ""), Request(Terminate, DeleteConfirmation)];
    assert kill[1..] == [Request(Terminate, DeleteConfirmation)];
    assert Run(Suspended, kill[1..]) == Run(Terminated, []);
  }
}
