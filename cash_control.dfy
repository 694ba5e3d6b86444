/**
 * The cash-control screen: the sales of the open shift, the cash expected in the
 * drawer, the discrepancy against the counted cash and its classification, the
 * validated open and close actions, and the difference shown in the shift history.
 * Which sales belong to the open shift is decided by comparing dates; that
 * comparison is a parameter here.
 */
module CashControl {
  import opened Wrappers
  import opened Inputs
  import opened Seqs
  import opened Ledger
  import opened Auth
  import opened Shifts

  /** `ventasDelTurno`: no shift, no sales; otherwise the ledger's sales that fall in the shift. */
  function ShiftSales(current: Option<Shift>, ledger: seq<Sale>, inShift: Sale -> bool): (r: seq<Sale>)
    ensures current.None? ==> r == []
    ensures current.Some? ==> forall s :: s in r <==> s in ledger && inShift(s)
    ensures |r| <= |ledger|
  {
    if current.None? then [] else Filter(ledger, inShift)
  }

  /** `montoEsperadoCierre`: the opening float plus the shift's sales, or 0 with no shift. */
  function ExpectedCash(current: Option<Shift>, ledger: seq<Sale>, inShift: Sale -> bool): (r: int)
    ensures current.None? ==> r == 0
    ensures current.Some? ==> r == current.value.openingFloat + Revenue(ShiftSales(current, ledger, inShift))
  {
    match current
    case None => 0
    case Some(s) => s.openingFloat + Revenue(ShiftSales(current, ledger, inShift))
  }

  /**
   * `diferencia`: an empty field shows no difference; a number is compared with the
   * expected cash; text that is not a number gives NaN (None).
   */
  function Discrepancy(counted: AmountInput, expected: int): (r: Option<int>)
    ensures counted.Blank? ==> r == Some(0)
    ensures counted.NotANumber? <==> r.None?
    ensures counted.Numeric? ==> r.Some? && r.value + expected == counted.amount
  {
    match counted
    case Blank => Some(0)
    case Numeric(n) => Some(n - expected)
    case NotANumber => None
  }

  /** How a difference is shown: the drawer balances, has a surplus, or is short (by a positive amount). */
  datatype Verdict = Exact | Surplus(amount: int) | Shortage(amount: int)

  /** The three-way classification of a difference; a shortage shows its absolute value. */
  function Classify(d: int): (v: Verdict)
    ensures v == Exact <==> d == 0
    ensures v.Surplus? <==> d > 0
    ensures v.Shortage? <==> d < 0
    ensures v.Surplus? ==> v.amount == d
    ensures v.Shortage? ==> v.amount == -d && v.amount > 0
  {
    if d == 0 then Exact else if d > 0 then Surplus(d) else Shortage(-d)
  }

  /** The box under the counted-cash field: a verdict for a filled-in field, or the red box with NaN. */
  datatype Preview = Verdict(verdict: Verdict) | NotANumberShortage

  /**
   * The close dialog's preview: hidden while the field is empty; for a number, the
   * verdict on the counted cash against the expected cash; for other text, the
   * shortage box (NaN is neither 0 nor positive).
   */
  function ClosePreview(counted: AmountInput, expected: int): (r: Option<Preview>)
    ensures counted.Blank? <==> r.None?
    ensures counted.Numeric? ==> r == Some(Verdict(Classify(counted.amount - expected)))
    ensures counted.NotANumber? ==> r == Some(NotANumberShortage)
  {
    match Discrepancy(counted, expected)
    case None => Some(NotANumberShortage)
    case Some(d) => if counted.Blank? then None else Some(Verdict(Classify(d)))
  }

  /** A counted amount equal to the expected cash balances; one unit more or less is a surplus or shortage of 1. */
  lemma ExactCountBalances(expected: int)
    ensures ClosePreview(Numeric(expected), expected) == Some(Verdict(Exact))
    ensures ClosePreview(Numeric(expected + 1), expected) == Some(Verdict(Surplus(1)))
    ensures ClosePreview(Numeric(expected - 1), expected) == Some(Verdict(Shortage(1)))
  {
  }

  /** `user?.name || 'Usuario'`: the signed-in user's name, unless there is none or it is empty. */
  function CashierName(user: Option<User>): (r: string)
    ensures user.Some? && user.value.name != "" ==> r == user.value.name
    ensures user.None? || user.value.name == "" ==> r == "Usuario"
  {
    if user.Some? && user.value.name != "" then user.value.name else "Usuario"
  }

  /** The history table lists the closed shifts newest first (`turnos.slice().reverse()`). */
  function NewestFirst(history: seq<Shift>): (r: seq<Shift>)
    ensures |r| == |history|
    ensures forall i :: 0 <= i < |history| ==> r[i] == history[|history| - 1 - i]
  {
    if history == [] then [] else NewestFirst(history[1..]) + [history[0]]
  }

  /** The shift a close appends heads the history table; the rows before it follow in the same order. */
  lemma ClosedShiftListedFirst(t: Till, closingAmount: int, salesCount: int, salesTotal: int, date: string, time: string)
    requires t.current.Some?
    ensures var rows := NewestFirst(AfterClose(t, closingAmount, salesCount, salesTotal, date, time).history);
            rows == [ClosedRecord(t.current.value, closingAmount, salesCount, salesTotal, date, time)] + NewestFirst(t.history)
  {
    var h := AfterClose(t, closingAmount, salesCount, salesTotal, date, time).history;
    assert NewestFirst(h)[1..] == NewestFirst(t.history);
  }

  /**
   * `diferenciaTurno` of a history row, as written: a recorded closing amount of 0 is
   * falsy and shows as a difference of 0, like a missing one.
   */
  function HistoryDifferenceAsWritten(s: Shift): (r: int)
    ensures s.closingAmount.None? ==> r == 0
    ensures s.closingAmount == Some(0) ==> r == 0
    ensures s.closingAmount.Some? && s.closingAmount.value != 0 ==>
      r == s.closingAmount.value - (s.openingFloat + s.salesTotal)
  {
    match s.closingAmount
    case None => 0
    case Some(m) => if m == 0 then 0 else m - (s.openingFloat + s.salesTotal)
  }

  /** A history row's difference with a closing amount of 0 treated as counted cash, as the close dialog does. */
  function HistoryDifference(s: Shift): (r: int)
    ensures s.closingAmount.None? ==> r == 0
    ensures s.closingAmount.Some? ==> r + s.openingFloat + s.salesTotal == s.closingAmount.value
  {
    match s.closingAmount
    case None => 0
    case Some(m) => m - (s.openingFloat + s.salesTotal)
  }

  /** The two readings differ only on a closing amount of 0, and there whenever the drawer should have held cash. */
  lemma HistoryDifferenceDiffers(s: Shift)
    ensures HistoryDifferenceAsWritten(s) != HistoryDifference(s) <==>
      s.closingAmount == Some(0) && s.openingFloat + s.salesTotal != 0
  {
  }

  /**
   * A shift opened with 50000 and closed with an empty drawer (counted 0) after 9000 of
   * sales: the close dialog showed a shortage of 59000, the history as written shows it
   * balanced.
   */
  lemma EmptyDrawerShownBalanced(s: Shift)
    requires s.openingFloat == 50000 && s.salesTotal == 9000 && s.closingAmount == Some(0)
    ensures ClosePreview(Numeric(0), s.openingFloat + s.salesTotal) == Some(Verdict(Shortage(59000)))
    ensures Classify(HistoryDifferenceAsWritten(s)) == Exact
    ensures Classify(HistoryDifference(s)) == Shortage(59000)
  {
  }

  /** A shift opened with 50000 whose only sale is one item of 2500 expects 52500 in the drawer. */
  lemma OneSaleExpected(s: Shift, sale: Sale, inShift: Sale -> bool)
    requires s.openingFloat == 50000 && sale.total == 2500 && inShift(sale)
    ensures Revenue(ShiftSales(Some(s), [sale], inShift)) == 2500
    ensures ExpectedCash(Some(s), [sale], inShift) == 52500
  {
    assert Filter([sale], inShift) == [sale] by {
      assert [sale][1..] == [];
    }
    assert Revenue([sale]) == sale.total + Revenue([sale][1..]);
    assert [sale][1..] == [];
  }

  /** Float 50000, sales 9000, counted 58500: 59000 expected, a difference of -500, short by 500. */
  lemma ShortBy500()
    ensures Discrepancy(Numeric(58500), 50000 + 9000) == Some(-500)
    ensures ClosePreview(Numeric(58500), 50000 + 9000) == Some(Verdict(Shortage(500)))
  {
  }

  /** The two amount fields of the screen (`montoApertura`, `montoCierre`). */
  class CashDrawer {
    var openingInput: AmountInput
    var closingInput: AmountInput

    constructor ()
      ensures openingInput == Blank && closingInput == Blank
    {
      openingInput := Blank;
      closingInput := Blank;
    }

    method SetOpeningInput(input: AmountInput)
      modifies this`openingInput
      ensures openingInput == input
    {
      openingInput := input;
    }

    method SetClosingInput(input: AmountInput)
      modifies this`closingInput
      ensures closingInput == input
    {
      closingInput := input;
    }

    /**
     * `abrirTurno` of this screen: an empty or non-numeric amount changes nothing;
     * otherwise a new shift for the signed-in user takes the slot and the field is cleared.
     * This screen keeps its own copy of the shift slots, read from the same storage.
     */
    method Open(register: ShiftRegister, user: Option<User>, id: string, date: string, time: string) returns (ok: bool)
      modifies this`openingInput, register
      ensures ok <==> Accepted(old(openingInput))
      ensures !ok ==> openingInput == old(openingInput) && register.State() == old(register.State())
      ensures ok ==> (openingInput == Blank &&
        register.State() == AfterOpen(old(register.State()), old(openingInput).amount, CashierName(user), id, date, time))
    {
      if !Accepted(openingInput) {
        return false;
      }
      register.Open(openingInput.amount, CashierName(user), id, date, time);
      openingInput := Blank;
      return true;
    }

    /**
     * `cerrarTurno` of this screen: with no shift, or an empty or non-numeric amount,
     * nothing changes; otherwise the shift is closed with the counted cash and the
     * number and sum of the shift's sales, and the field is cleared.
     */
    method Close(register: ShiftRegister, ledger: seq<Sale>, inShift: Sale -> bool, date: string, time: string)
      returns (ok: bool)
      modifies this`closingInput, register
      ensures ok <==> old(register.current).Some? && Accepted(old(closingInput))
      ensures !ok ==> closingInput == old(closingInput) && register.State() == old(register.State())
      ensures ok ==> (closingInput == Blank &&
        register.State() == AfterClose(old(register.State()), old(closingInput).amount,
                                       |ShiftSales(old(register.current), ledger, inShift)|,
                                       Revenue(ShiftSales(old(register.current), ledger, inShift)), date, time))
    {
      if register.current.None? {
        return false;
      }
      if !Accepted(closingInput) {
        return false;
      }
      var sales := ShiftSales(register.current, ledger, inShift);
      register.Close(closingInput.amount, |sales|, Revenue(sales), date, time);
      closingInput := Blank;
      return true;
    }
  }

  /**
   * The record a successful close appends holds the number and total of the shift's
   * sales, and its (corrected) history difference is the difference the close dialog
   * showed for the counted cash.
   */
  lemma CloseRecordMatchesDialog(t: Till, counted: int, ledger: seq<Sale>, inShift: Sale -> bool, date: string, time: string)
    requires t.current.Some?
    ensures var sales := ShiftSales(t.current, ledger, inShift);
            var r := AfterClose(t, counted, |sales|, Revenue(sales), date, time);
            var record := r.history[|r.history| - 1];
            record.salesCount == |sales| && record.salesTotal == Revenue(sales) &&
            Some(HistoryDifference(record)) == Discrepancy(Numeric(counted), ExpectedCash(t.current, ledger, inShift))
  {
  }
}
