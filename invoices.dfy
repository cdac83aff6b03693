/** The normalised invoice table of the dashboard: one typed row per issued voucher,
    with the credit-note sign rule applied (app.py:27-37). */
module Invoices {

  /** A calendar date of issue, already parsed from its YYYY-MM-DD text. */
  datatype Date = Date(year: int, month: int, day: int)

  /** The calendar month a date falls in; the day is discarded. */
  datatype YearMonth = YearMonth(year: int, month: int)

  /** One row of the table, restricted to the eight retained columns. */
  datatype Invoice = Invoice(
    issued: Date,
    voucherType: int,
    pointOfSale: int,
    numberFrom: int,
    numberTo: int,
    clientId: string,
    clientName: string,
    amount: real)

  /** Voucher type of a credit note. */
  const CreditNote: int := 13

  function MonthOf(d: Date): YearMonth
  {
    YearMonth(d.year, d.month)
  }

  /** The sign rule for one row: a credit note counts against billing. */
  function NormalizeRecord(r: Invoice): (n: Invoice)
    ensures r.voucherType == CreditNote ==> n.amount == -r.amount
    ensures r.voucherType != CreditNote ==> n == r
    ensures n.(amount := r.amount) == r
    ensures r.voucherType == CreditNote && r.amount >= 0.0 ==> n.amount <= 0.0
  {
    if r.voucherType == CreditNote then r.(amount := -r.amount) else r
  }

  /** The whole table with the sign rule applied row by row. */
  function Normalized(rows: seq<Invoice>): seq<Invoice>
  {
    seq(|rows|, i requires 0 <= i < |rows| => NormalizeRecord(rows[i]))
  }

  /** Replaces the amount column by its signed version; row count and order are kept. */
  method Normalize(rows: seq<Invoice>) returns (table: seq<Invoice>)
    ensures table == Normalized(rows)
  {
    table := [];
    for i := 0 to |rows|
      invariant |table| == i
      invariant forall k :: 0 <= k < i ==> table[k] == NormalizeRecord(rows[k])
    {
      table := table + [NormalizeRecord(rows[i])];
    }
  }

  /** Sum of the amount column. */
  function TotalAmount(rows: seq<Invoice>): real
  {
    if rows == [] then 0.0 else TotalAmount(rows[..|rows| - 1]) + rows[|rows| - 1].amount
  }

  /** The rows whose voucher type is a credit note, in table order (app.py:346). */
  function CreditNotes(rows: seq<Invoice>): (notes: seq<Invoice>)
    ensures |notes| <= |rows|
    ensures forall x :: x in notes <==> x in rows && x.voucherType == CreditNote
    ensures forall x :: multiset(notes)[x] == if x.voucherType == CreditNote then multiset(rows)[x] else 0
  {
    if rows == [] then []
    else
      assert rows == rows[..|rows| - 1] + [rows[|rows| - 1]];
      CreditNotes(rows[..|rows| - 1])
         + (if rows[|rows| - 1].voucherType == CreditNote then [rows[|rows| - 1]] else [])
  }

  /** The rows that are not credit notes, in table order. */
  function Sales(rows: seq<Invoice>): (sales: seq<Invoice>)
    ensures |sales| + |CreditNotes(rows)| == |rows|
    ensures forall x :: x in sales <==> x in rows && x.voucherType != CreditNote
    ensures forall x :: multiset(sales)[x] == if x.voucherType != CreditNote then multiset(rows)[x] else 0
  {
    if rows == [] then []
    else
      assert rows == rows[..|rows| - 1] + [rows[|rows| - 1]];
      Sales(rows[..|rows| - 1])
         + (if rows[|rows| - 1].voucherType != CreditNote then [rows[|rows| - 1]] else [])
  }

  lemma {:induction false} TotalAmountAppend(a: seq<Invoice>, b: seq<Invoice>)
    ensures TotalAmount(a + b) == TotalAmount(a) + TotalAmount(b)
    decreases |b|
  {
    if b == [] {
      assert a + b == a;
    } else {
      assert (a + b)[..|a + b| - 1] == a + b[..|b| - 1];
      TotalAmountAppend(a, b[..|b| - 1]);
    }
  }

  lemma {:induction false} NormalizedSnoc(rows: seq<Invoice>)
    requires rows != []
    ensures Normalized(rows) == Normalized(rows[..|rows| - 1]) + [NormalizeRecord(rows[|rows| - 1])]
  {
  }

  /** After normalisation the table nets credit notes out of sales: its total is
      the sales total minus the credit-note magnitudes. */
  lemma {:induction false} NormalizedTotalNetsCredits(rows: seq<Invoice>)
    ensures TotalAmount(Normalized(rows)) == TotalAmount(Sales(rows)) - TotalAmount(CreditNotes(rows))
    decreases |rows|
  {
    if rows != [] {
      var init, last := rows[..|rows| - 1], rows[|rows| - 1];
      NormalizedSnoc(rows);
      NormalizedTotalNetsCredits(init);
      TotalAmountAppend(Normalized(init), [NormalizeRecord(last)]);
      TotalAmountAppend(Sales(init), if last.voucherType != CreditNote then [last] else []);
      TotalAmountAppend(CreditNotes(init), if last.voucherType == CreditNote then [last] else []);
      assert TotalAmount([NormalizeRecord(last)]) == NormalizeRecord(last).amount;
      assert TotalAmount([last]) == last.amount;
    }
  }

  /** The credit-note listing of the normalised table sums to minus the credit-note
      magnitudes, so it is never positive when those magnitudes are not negative (app.py:352). */
  lemma {:induction false} CreditNoteListingTotal(rows: seq<Invoice>)
    ensures TotalAmount(CreditNotes(Normalized(rows))) == -TotalAmount(CreditNotes(rows))
    ensures (forall k :: 0 <= k < |rows| ==> rows[k].amount >= 0.0) ==> TotalAmount(CreditNotes(Normalized(rows))) <= 0.0
    decreases |rows|
  {
    if rows != [] {
      var init, last := rows[..|rows| - 1], rows[|rows| - 1];
      NormalizedSnoc(rows);
      var n := Normalized(rows);
      assert n[..|n| - 1] == Normalized(init);
      CreditNoteListingTotal(init);
      TotalAmountAppend(CreditNotes(Normalized(init)), if last.voucherType == CreditNote then [NormalizeRecord(last)] else []);
      TotalAmountAppend(CreditNotes(init), if last.voucherType == CreditNote then [last] else []);
      assert TotalAmount([NormalizeRecord(last)]) == NormalizeRecord(last).amount;
      assert TotalAmount([last]) == last.amount;
    }
  }
}
