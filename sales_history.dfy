/**
 * The sales history screen: the ledger filtered by one date, the total and
 * average of the listed sales, and the detail of a selected sale.
 */
module SalesHistory {
  import opened Wrappers
  import opened Seqs
  import opened Ledger
  import opened Grouping
  import opened Reports

  /** `ventasFiltradas`: an empty date field lists the whole ledger, a date lists the sales of that date. */
  function DateFiltered(ledger: seq<Sale>, filter: string): (r: seq<Sale>)
    ensures filter == "" ==> r == ledger
    ensures filter != "" ==> forall s :: s in r <==> s in ledger && s.date == filter
    ensures |r| <= |ledger|
  {
    if filter == "" then ledger else Filter(ledger, (s: Sale) => s.date == filter)
  }

  /**
   * The list panel: the "no sales" notice (None) when the ledger itself is empty,
   * whatever the filter; otherwise the filtered sales, possibly none.
   */
  function Listed(ledger: seq<Sale>, filter: string): (r: Option<seq<Sale>>)
    ensures r.None? <==> ledger == []
    ensures r.Some? ==> r.value == DateFiltered(ledger, filter)
  {
    if ledger == [] then None else Some(DateFiltered(ledger, filter))
  }

  /** The statistics panel: total, average per sale (0 without sales) and number of sales. */
  datatype Summary = Summary(total: int, average: real, count: nat)

  /** The panel's figures for a list of sales. */
  function SummaryOf(listed: seq<Sale>): (r: Summary)
    ensures r.count == |listed| && r.total == Revenue(listed)
    ensures r.count == 0 ==> r.average == 0.0
    ensures r.count > 0 ==> r.average * (r.count as real) == r.total as real
  {
    var total := Revenue(listed);
    Summary(total, Average(total, |listed|), |listed|)
  }

  /** The panel over the listed sales; with no date filter it agrees with the reports screen. */
  function Summarize(ledger: seq<Sale>, filter: string): (r: Summary)
    ensures r == SummaryOf(DateFiltered(ledger, filter))
    ensures filter == "" ==> r.total == Statistics(ledger).revenue && r.count == Statistics(ledger).count
  {
    SummaryOf(DateFiltered(ledger, filter))
  }

  /** The revenue of one date's sales is what the per-day dictionary holds under that date. */
  lemma {:induction false} DateRevenueIsKeyTotal(ledger: seq<Sale>, d: string)
    ensures Revenue(Filter(ledger, (s: Sale) => s.date == d)) == KeyTotal(SaleEntries(ledger, Date), d)
  {
    if ledger != [] {
      DateRevenueIsKeyTotal(ledger[1..], d);
      assert SaleEntries(ledger, Date)[1..] == SaleEntries(ledger[1..], Date);
      var keep := (s: Sale) => s.date == d;
      var head := if keep(ledger[0]) then [ledger[0]] else [];
      RevenueConcat(head, Filter(ledger[1..], keep));
      if keep(ledger[0]) {
        assert Revenue(head) == ledger[0].total + Revenue(head[1..]);
        assert head[1..] == [];
      }
    }
  }

  /**
   * The history filtered by a date on which there were sales shows the same total as
   * the report's per-day entry for that date, taken over the same sales.
   */
  lemma HistoryMatchesDailyReport(ledger: seq<Sale>, d: string)
    requires d != ""
    requires exists s :: s in ledger && s.date == d
    ensures exists e :: e in SalesByDay(ledger) && e.key == d &&
                        e.amount == Summarize(ledger, d).total
  {
    var r := SalesByDay(ledger);
    assert d in Keys(r);
    var i :| 0 <= i < |r| && Keys(r)[i] == d;
    assert r[i] in r;
    DateRevenueIsKeyTotal(ledger, d);
  }

  /**
   * For a sale as checkout records it, each detail line (price × quantity) is the
   * subtotal its cart line had, and the detail lines add up to the total shown.
   */
  lemma DetailLinesAddUp(lines: seq<CartLine>, paymentMethod: string, tender: Option<int>,
                         id: int, date: string, time: string)
    ensures |NewSale(lines, paymentMethod, tender, id, date, time).items| == |lines|
    ensures forall i :: 0 <= i < |lines| ==>
      SaleLineSubtotal(NewSale(lines, paymentMethod, tender, id, date, time).items[i]) == LineSubtotal(lines[i])
    ensures SumOf(NewSale(lines, paymentMethod, tender, id, date, time).items, SaleLineSubtotal) ==
            NewSale(lines, paymentMethod, tender, id, date, time).total
  {
    var s := NewSale(lines, paymentMethod, tender, id, date, time);
    forall i | 0 <= i < |lines| ensures SaleLineSubtotal(s.items[i]) == LineSubtotal(lines[i]) {
      SnapshotLineSubtotal(lines, i);
    }
  }
}
