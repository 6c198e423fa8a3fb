/** The Billing panel of components/Billing.tsx: the paid and outstanding
    totals, the invoice count, the status badge and the consistency of the
    seeded invoices. Amounts are whole dollars. */
module Billing {
  import opened Seqs
  import opened Badges

  datatype InvoiceStatus = Draft | Sent | Paid | Overdue {
    /** The tag as it is written in the invoice record. */
    function Name(): (r: string)
      ensures r in ["draft", "sent", "paid", "overdue"]
    {
      match this
      case Draft => "draft"
      case Sent => "sent"
      case Paid => "paid"
      case Overdue => "overdue"
    }
  }

  datatype InvoiceItem = InvoiceItem(description: string, quantity: int, rate: int, amount: int)

  datatype Invoice = Invoice(
    id: string, invoiceNumber: string, client: string, date: string, dueDate: string,
    amount: int, status: InvoiceStatus, items: seq<InvoiceItem>)

  /** `getStatusColor`, which takes any string: paid is green, sent blue,
      overdue red, and everything else (draft included) gray. */
  function StatusColour(status: string): (c: Colour)
    ensures c == Green <==> status == "paid"
    ensures c == Blue <==> status == "sent"
    ensures c == Red <==> status == "overdue"
    ensures c == Gray <==> status !in ["paid", "sent", "overdue"]
  {
    if status == "paid" then Green
    else if status == "sent" then Blue
    else if status == "overdue" then Red
    else Gray
  }

  /** The four statuses an invoice can carry get four different badges;
      a draft is gray. */
  lemma InvoiceBadges()
    ensures StatusColour(Draft.Name()) == Gray
    ensures forall s: InvoiceStatus, t: InvoiceStatus :: StatusColour(s.Name()) == StatusColour(t.Name()) ==> s == t
  {
  }

  /** Every invoice has a non-negative amount. */
  predicate NonNegativeAmounts(invoices: seq<Invoice>) {
    forall i :: 0 <= i < |invoices| ==> invoices[i].amount >= 0
  }

  /** The sum of the amounts of `invoices`: non-negative when every amount is. */
  function TotalAmount(invoices: seq<Invoice>): (r: int)
    ensures NonNegativeAmounts(invoices) ==> r >= 0
  {
    SumNonNegative(invoices, (inv: Invoice) => inv.amount);
    Sum(invoices, (inv: Invoice) => inv.amount)
  }

  function PaidInvoices(invoices: seq<Invoice>): (r: seq<Invoice>)
    ensures |r| <= |invoices|
  {
    Filter(invoices, (inv: Invoice) => inv.status == Paid)
  }

  function UnpaidInvoices(invoices: seq<Invoice>): (r: seq<Invoice>)
    ensures |r| <= |invoices|
  {
    Filter(invoices, (inv: Invoice) => inv.status != Paid)
  }

  /** `totalPaid`: with non-negative amounts, between nothing and the sum of
      all invoices. */
  function TotalPaid(invoices: seq<Invoice>): (r: int)
    ensures NonNegativeAmounts(invoices) ==> 0 <= r <= TotalAmount(invoices)
  {
    var paid := (inv: Invoice) => inv.status == Paid;
    var unpaid := (inv: Invoice) => inv.status != Paid;
    SumPartition(invoices, paid, unpaid, (inv: Invoice) => inv.amount);
    FilterKeepsProperty(invoices, paid, (inv: Invoice) => inv.amount >= 0);
    FilterKeepsProperty(invoices, unpaid, (inv: Invoice) => inv.amount >= 0);
    assert NonNegativeAmounts(invoices) ==> TotalAmount(UnpaidInvoices(invoices)) >= 0;
    TotalAmount(PaidInvoices(invoices))
  }

  /** `totalOutstanding`: whatever of the sum of all invoices is not paid,
      and with non-negative amounts between nothing and that sum. */
  function TotalOutstanding(invoices: seq<Invoice>): (r: int)
    ensures r == TotalAmount(invoices) - TotalPaid(invoices)
    ensures NonNegativeAmounts(invoices) ==> 0 <= r <= TotalAmount(invoices)
  {
    var paid := (inv: Invoice) => inv.status == Paid;
    var unpaid := (inv: Invoice) => inv.status != Paid;
    SumPartition(invoices, paid, unpaid, (inv: Invoice) => inv.amount);
    FilterKeepsProperty(invoices, unpaid, (inv: Invoice) => inv.amount >= 0);
    TotalAmount(UnpaidInvoices(invoices))
  }

  /** The "Total Invoices" card. */
  function TotalInvoices(invoices: seq<Invoice>): (n: nat)
    ensures n == |PaidInvoices(invoices)| + |UnpaidInvoices(invoices)|
  {
    FilterPartitionLength(invoices, (inv: Invoice) => inv.status == Paid, (inv: Invoice) => inv.status != Paid);
    |invoices|
  }

  /** Every invoice is either paid or outstanding, so the two cards add up to
      the sum of all invoice amounts. */
  lemma PaidAndOutstandingPartition(invoices: seq<Invoice>)
    ensures TotalPaid(invoices) + TotalOutstanding(invoices) == TotalAmount(invoices)
  {
    SumPartition(invoices, (inv: Invoice) => inv.status == Paid, (inv: Invoice) => inv.status != Paid,
      (inv: Invoice) => inv.amount);
  }

  /** The amounts of the invoices with status `s`: with non-negative amounts,
      between nothing and the sum of all invoices. */
  function StatusTotal(invoices: seq<Invoice>, s: InvoiceStatus): (r: int)
    ensures NonNegativeAmounts(invoices) ==> 0 <= r <= TotalAmount(invoices)
  {
    var has := (inv: Invoice) => inv.status == s;
    var other := (inv: Invoice) => inv.status != s;
    SumPartition(invoices, has, other, (inv: Invoice) => inv.amount);
    FilterKeepsProperty(invoices, has, (inv: Invoice) => inv.amount >= 0);
    FilterKeepsProperty(invoices, other, (inv: Invoice) => inv.amount >= 0);
    assert NonNegativeAmounts(invoices) ==> TotalAmount(Filter(invoices, other)) >= 0;
    TotalAmount(Filter(invoices, (inv: Invoice) => inv.status == s))
  }

  /** Appending one invoice to a list adds its amount to the total of its
      own status and to no other. */
  lemma StatusTotalStep(invoices: seq<Invoice>, s: InvoiceStatus)
    requires invoices != []
    ensures var last := invoices[|invoices| - 1];
      StatusTotal(invoices, s)
        == StatusTotal(invoices[..|invoices| - 1], s) + (if last.status == s then last.amount else 0)
  {
    var last := invoices[|invoices| - 1];
    SumAppend(Filter(invoices[..|invoices| - 1], (inv: Invoice) => inv.status == s), [last],
      (inv: Invoice) => inv.amount);
  }

  /** Appending one invoice adds its amount to the outstanding total exactly
      when it is not paid. */
  lemma OutstandingStep(invoices: seq<Invoice>)
    requires invoices != []
    ensures var last := invoices[|invoices| - 1];
      TotalOutstanding(invoices)
        == TotalOutstanding(invoices[..|invoices| - 1]) + (if last.status != Paid then last.amount else 0)
  {
    var last := invoices[|invoices| - 1];
    SumAppend(UnpaidInvoices(invoices[..|invoices| - 1]), [last], (inv: Invoice) => inv.amount);
  }

  /** Outstanding counts drafts, sent and overdue invoices alike: it is the
      sum of the three per-status totals. */
  lemma {:induction false} OutstandingIsDraftSentOverdue(invoices: seq<Invoice>)
    ensures TotalOutstanding(invoices)
      == StatusTotal(invoices, Draft) + StatusTotal(invoices, Sent) + StatusTotal(invoices, Overdue)
    decreases |invoices|
  {
    if invoices != [] {
      OutstandingIsDraftSentOverdue(invoices[..|invoices| - 1]);
      OutstandingStep(invoices);
      StatusTotalStep(invoices, Draft);
      StatusTotalStep(invoices, Sent);
      StatusTotalStep(invoices, Overdue);
    }
  }

  /** A line item bills its quantity at its rate. */
  predicate ItemConsistent(item: InvoiceItem) {
    item.amount == item.quantity * item.rate
  }

  /** An invoice's amount is the sum of its line items, each consistent. */
  predicate InvoiceConsistent(inv: Invoice) {
    && (forall i :: 0 <= i < |inv.items| ==> ItemConsistent(inv.items[i]))
    && inv.amount == Sum(inv.items, (item: InvoiceItem) => item.amount)
  }

  /** The invoices seeded into the panel. */
  const SeedInvoices: seq<Invoice> := [
    Invoice("1", "INV-2023-001", "Johnson Enterprises", "2023-07-01", "2023-07-15", 5250, Paid, [
      InvoiceItem("Legal consultation - Contract review", 3, 250, 750),
      InvoiceItem("Document drafting and preparation", 18, 250, 4500)]),
    Invoice("2", "INV-2023-002", "Smith & Associates", "2023-07-05", "2023-07-20", 3750, Sent, [
      InvoiceItem("Property acquisition legal services", 15, 250, 3750)]),
    Invoice("3", "INV-2023-003", "Thompson Manufacturing", "2023-07-10", "2023-07-25", 1250, Overdue, [
      InvoiceItem("Employment agreement review", 5, 250, 1250)]),
    Invoice("4", "INV-2023-004", "Williams Properties", "2023-07-15", "2023-07-30", 3000, Draft, [
      InvoiceItem("Trademark filing preparation", 12, 250, 3000)])
  ]

  /** Every seeded item bills quantity times rate, and every seeded invoice's
      amount is the sum of its items. */
  lemma SeedInvoicesConsistent()
    ensures forall i :: 0 <= i < |SeedInvoices| ==> InvoiceConsistent(SeedInvoices[i])
  {
    var f := (item: InvoiceItem) => item.amount;
    forall i | 0 <= i < |SeedInvoices|
      ensures InvoiceConsistent(SeedInvoices[i])
    {
      var items := SeedInvoices[i].items;
      assert items[..|items| - 1] == if i == 0 then [items[0]] else [];
      if i == 0 {
        assert [items[0]][..0] == [];
        assert Sum([items[0]], f) == 750;
      }
    }
  }

  /** With the seeded invoices the cards read 4 invoices, 5250 paid and 8000
      outstanding. */
  lemma SeedCards()
    ensures TotalInvoices(SeedInvoices) == 4
    ensures TotalPaid(SeedInvoices) == 5250 && TotalOutstanding(SeedInvoices) == 8000
  {
    FilterSingle(SeedInvoices, (inv: Invoice) => inv.status == Paid, 0);
    var f := (inv: Invoice) => inv.amount;
    assert Sum([SeedInvoices[0]], f) == 5250 by {
      assert [SeedInvoices[0]][..0] == [];
    }
    assert PaidInvoices(SeedInvoices) == [SeedInvoices[0]];
    assert SeedInvoices[..1] == [SeedInvoices[0]];
    assert Sum(SeedInvoices[..2], f) == 9000 by { assert SeedInvoices[..2][..1] == SeedInvoices[..1]; }
    assert Sum(SeedInvoices[..3], f) == 10250 by { assert SeedInvoices[..3][..2] == SeedInvoices[..2]; }
    assert Sum(SeedInvoices, f) == 13250 by { assert SeedInvoices[..3] == SeedInvoices[..|SeedInvoices| - 1]; }
    PaidAndOutstandingPartition(SeedInvoices);
  }
}
