/** The subscription history of the plan page: invoices newest first. A renewal prepends one
    pending invoice and recording a payment marks invoices paid; neither operation on its own
    removes an invoice. (A renewal commit writes the history it saw when it was started, so a
    change made while it was processing is lost: see PlanContent.PlanPanel.FinishRenewal.) */
module Ledger {
  import opened Pricing

  datatype InvoiceStatus = Paid | Pending | Failed

  datatype InvoiceType = Renewal | Upgrade | Creation | Downgrade

  /** One history row; the amount is in cents. */
  datatype Invoice = Invoice(
    id: string, plan: string, date: string, amountCents: int,
    status: InvoiceStatus, kind: InvoiceType)

  /** The two paid invoices the page starts with, newest first. */
  function SeedHistory(): seq<Invoice>
  {
    [ Invoice("inv_001", "Campus Starter", "Dec 12, 2024", 120000, Paid, Renewal),
      Invoice("inv_002", "Campus Starter", "Dec 12, 2023", 120000, Paid, Creation) ]
  }

  /** The invoice a renewal commit issues: pending, for the current plan group, billed at the
      preview total of the chosen duration, and a creation when it ends a trial. */
  function RenewalInvoice(id: string, plan: string, date: string, duration: string, isTrial: bool): (inv: Invoice)
    ensures inv.id == id && inv.plan == plan && inv.date == date
    ensures inv.status == Pending
    ensures inv.kind == Creation <==> isTrial
    ensures inv.kind == Renewal <==> !isTrial
    ensures inv.amountCents == 105 * DurationPrice(duration)
  {
    Invoice(id, plan, date, GetPreviewTotals(duration).totalCents, Pending,
            if isTrial then Creation else Renewal)
  }

  /** Recording a payment: every invoice with the given id becomes Paid; every other invoice, and
      every other field, stays as it was, in the same order. */
  function MarkPaid(h: seq<Invoice>, id: string): (r: seq<Invoice>)
    ensures |r| == |h|
    ensures forall i :: 0 <= i < |h| ==>
              r[i] == if h[i].id == id then h[i].(status := Paid) else h[i]
  {
    if h == [] then []
    else [if h[0].id == id then h[0].(status := Paid) else h[0]] + MarkPaid(h[1..], id)
  }

  /** The ids of a history, in order. */
  function Ids(h: seq<Invoice>): seq<string>
  {
    seq(|h|, i requires 0 <= i < |h| => h[i].id)
  }

  /** Recording a payment removes nothing, adds nothing and reorders nothing. */
  lemma MarkPaidKeepsIds(h: seq<Invoice>, id: string)
    ensures Ids(MarkPaid(h, id)) == Ids(h)
  {
  }

  /** Recording the same payment twice is the same as recording it once. */
  lemma MarkPaidIdempotent(h: seq<Invoice>, id: string)
    ensures MarkPaid(MarkPaid(h, id), id) == MarkPaid(h, id)
  {
  }

  /** An id that is not in the history leaves it unchanged: the payment is silently dropped. */
  lemma MarkPaidUnknownId(h: seq<Invoice>, id: string)
    requires id !in Ids(h)
    ensures MarkPaid(h, id) == h
  {
    assert forall i :: 0 <= i < |h| ==> h[i].id == Ids(h)[i];
  }

  /** The number of invoices still pending: zero exactly when no invoice is pending, and the whole
      history exactly when every invoice is. */
  function PendingCount(h: seq<Invoice>): (n: nat)
    ensures n <= |h|
    ensures n == 0 <==> forall i :: 0 <= i < |h| ==> h[i].status != Pending
    ensures n == |h| <==> forall i :: 0 <= i < |h| ==> h[i].status == Pending
  {
    if h == [] then 0 else (if h[0].status == Pending then 1 else 0) + PendingCount(h[1..])
  }

  /** Recording a payment never adds a pending invoice, and settles at least one when the id
      names a pending invoice. */
  lemma {:induction false} MarkPaidSettlesPending(h: seq<Invoice>, id: string)
    ensures PendingCount(MarkPaid(h, id)) <= PendingCount(h)
    ensures (exists i :: 0 <= i < |h| && h[i].id == id && h[i].status == Pending) ==>
              PendingCount(MarkPaid(h, id)) < PendingCount(h)
  {
    if h != [] {
      var r := MarkPaid(h, id);
      assert r[1..] == MarkPaid(h[1..], id);
      MarkPaidSettlesPending(h[1..], id);
      if exists i :: 0 <= i < |h| && h[i].id == id && h[i].status == Pending {
        var i :| 0 <= i < |h| && h[i].id == id && h[i].status == Pending;
        if i > 0 {
          assert h[1..][i - 1].id == id && h[1..][i - 1].status == Pending;
        }
      }
    }
  }

  /** Prepending an invoice keeps every older invoice, unchanged, one place further down. */
  lemma PrependKeepsOlder(h: seq<Invoice>, inv: Invoice)
    ensures |[inv] + h| == |h| + 1 && ([inv] + h)[0] == inv
    ensures forall i :: 0 <= i < |h| ==> ([inv] + h)[i + 1] == h[i]
    ensures PendingCount([inv] + h) == PendingCount(h) + (if inv.status == Pending then 1 else 0)
  {
    assert ([inv] + h)[1..] == h;
  }
}
