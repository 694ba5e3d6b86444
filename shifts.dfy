/**
 * The cash-drawer shift ("turno") register: one slot for the current shift and an
 * append-only history of closed shifts, with the open, close and counter-update
 * handlers. Loading and saving both slots to the browser's storage is not modelled;
 * identities and clock readings are parameters.
 */
module Shifts {
  import opened Wrappers

  /** 'abierto' | 'cerrado'. */
  datatype ShiftState = Open | Closed

  /** A shift (`Turno`). */
  datatype Shift = Shift(
    id: string,
    openDate: string,
    openTime: string,
    closeDate: Option<string>,
    closeTime: Option<string>,
    cashier: string,
    openingFloat: int,
    closingAmount: Option<int>,
    salesCount: int,
    salesTotal: int,
    state: ShiftState)

  /** The two slots of the register: `turnoActual` and `turnos`. */
  datatype Till = Till(current: Option<Shift>, history: seq<Shift>)

  /** The shift that an open action creates. */
  function NewShift(id: string, date: string, time: string, cashier: string, openingFloat: int): (s: Shift)
    ensures s.state == Open && s.salesCount == 0 && s.salesTotal == 0
    ensures s.openingFloat == openingFloat && s.cashier == cashier && s.id == id
    ensures s.openDate == date && s.openTime == time
    ensures s.closeDate.None? && s.closeTime.None? && s.closingAmount.None?
  {
    Shift(id, date, time, None, None, cashier, openingFloat, None, 0, 0, Open)
  }

  /** `{ ...shift, fechaCierre, horaCierre, montoCierre, ventasRealizadas, totalVentas, estado: 'cerrado' }`. */
  function ClosedRecord(s: Shift, closingAmount: int, salesCount: int, salesTotal: int,
                        date: string, time: string): (c: Shift)
    ensures c.state == Closed
    ensures c.id == s.id && c.openDate == s.openDate && c.openTime == s.openTime
    ensures c.cashier == s.cashier && c.openingFloat == s.openingFloat
    ensures c.closingAmount == Some(closingAmount) && c.closeDate == Some(date) && c.closeTime == Some(time)
    ensures c.salesCount == salesCount && c.salesTotal == salesTotal
  {
    s.(closeDate := Some(date), closeTime := Some(time), closingAmount := Some(closingAmount),
       salesCount := salesCount, salesTotal := salesTotal, state := Closed)
  }

  /**
   * `abrirTurno`: there is no guard against a shift already being open. The new shift
   * takes the slot; a shift that was there is dropped without reaching the history.
   */
  function AfterOpen(t: Till, openingFloat: int, cashier: string, id: string, date: string, time: string): (r: Till)
    ensures r.history == t.history
    ensures r.current == Some(NewShift(id, date, time, cashier, openingFloat))
  {
    Till(Some(NewShift(id, date, time, cashier, openingFloat)), t.history)
  }

  /**
   * `cerrarTurno`: with no current shift nothing happens; otherwise the closed record is
   * appended at the end of the history and the slot is emptied.
   */
  function AfterClose(t: Till, closingAmount: int, salesCount: int, salesTotal: int,
                      date: string, time: string): (r: Till)
    ensures t.current.None? ==> r == t
    ensures t.current.Some? ==>
      r.current.None? &&
      r.history == t.history + [ClosedRecord(t.current.value, closingAmount, salesCount, salesTotal, date, time)]
  {
    match t.current
    case None => t
    case Some(s) => Till(None, t.history + [ClosedRecord(s, closingAmount, salesCount, salesTotal, date, time)])
  }

  /**
   * `actualizarTurno`: with no current shift nothing happens; otherwise both counters take
   * the values given (absolute values, computed by the caller) and nothing else changes.
   */
  function AfterUpdate(t: Till, salesCount: int, salesTotal: int): (r: Till)
    ensures t.current.None? ==> r == t
    ensures t.current.Some? ==>
      r.current == Some(t.current.value.(salesCount := salesCount, salesTotal := salesTotal))
    ensures r.history == t.history
  {
    match t.current
    case None => t
    case Some(s) => Till(Some(s.(salesCount := salesCount, salesTotal := salesTotal)), t.history)
  }

  /** Closing a second time changes nothing: the first close emptied the slot. */
  lemma CloseTwice(t: Till, a: int, b: int, c: int, d: string, e: string,
                   a': int, b': int, c': int, d': string, e': string)
    ensures AfterClose(AfterClose(t, a, b, c, d, e), a', b', c', d', e') == AfterClose(t, a, b, c, d, e)
  {
  }

  /** One action on the register, with its arguments. */
  datatype Action =
    | OpenShift(openingFloat: int, cashier: string, id: string, date: string, time: string)
    | CloseShift(closingAmount: int, salesCount: int, salesTotal: int, date: string, time: string)
    | UpdateShift(salesCount: int, salesTotal: int)

  function Step(t: Till, a: Action): (r: Till)
    ensures t.history <= r.history && |r.history| <= |t.history| + 1
    ensures !a.CloseShift? ==> r.history == t.history
    ensures WellFormed(t) ==> WellFormed(r)
  {
    match a
    case OpenShift(f, c, id, d, h) => AfterOpen(t, f, c, id, d, h)
    case CloseShift(m, n, s, d, h) => AfterClose(t, m, n, s, d, h)
    case UpdateShift(n, s) => AfterUpdate(t, n, s)
  }

  /** The register after a run of actions, in order. */
  function Run(t: Till, actions: seq<Action>): (r: Till)
    ensures (forall a :: a in actions ==> !a.CloseShift?) ==> r.history == t.history
    decreases |actions|
  {
    if actions == [] then t
    else
      assert forall a :: a in actions[1..] ==> a in actions;
      Run(Step(t, actions[0]), actions[1..])
  }

  /**
   * The history only grows: whatever actions run, the earlier history is a prefix of the
   * later one (no entry is changed or removed), and each close adds at most one entry.
   */
  lemma {:induction false} HistoryOnlyGrows(t: Till, actions: seq<Action>)
    ensures t.history <= Run(t, actions).history
    ensures |Run(t, actions).history| <= |t.history| + |actions|
    decreases |actions|
  {
    if actions != [] {
      HistoryOnlyGrows(Step(t, actions[0]), actions[1..]);
    }
  }

  /** The slot holds only an open shift and the history only closed ones. */
  predicate WellFormed(t: Till)
  {
    (t.current.Some? ==> t.current.value.state == Open) &&
    forall i :: 0 <= i < |t.history| ==> t.history[i].state == Closed
  }

  /** Every run of actions keeps the register well formed. */
  lemma {:induction false} RunKeepsWellFormed(t: Till, actions: seq<Action>)
    requires WellFormed(t)
    ensures WellFormed(Run(t, actions))
    decreases |actions|
  {
    if actions != [] {
      var t' := Step(t, actions[0]);
      assert WellFormed(t');
      RunKeepsWellFormed(t', actions[1..]);
    }
  }

  /** The register as the shift context holds it. */
  class ShiftRegister {
    var current: Option<Shift>
    var history: seq<Shift>

    function State(): Till
      reads this
    {
      Till(current, history)
    }

    /** The slots as loaded from storage (or empty). */
    constructor (saved: Option<Shift>, savedHistory: seq<Shift>)
      ensures State() == Till(saved, savedHistory)
    {
      current := saved;
      history := savedHistory;
    }

    method Open(openingFloat: int, cashier: string, id: string, date: string, time: string)
      modifies this
      ensures State() == AfterOpen(old(State()), openingFloat, cashier, id, date, time)
    {
      current := Some(NewShift(id, date, time, cashier, openingFloat));
    }

    method Close(closingAmount: int, salesCount: int, salesTotal: int, date: string, time: string)
      modifies this
      ensures State() == AfterClose(old(State()), closingAmount, salesCount, salesTotal, date, time)
    {
      if current.None? {
        return;
      }
      var closed := ClosedRecord(current.value, closingAmount, salesCount, salesTotal, date, time);
      history := history + [closed];
      current := None;
    }

    method Update(salesCount: int, salesTotal: int)
      modifies this
      ensures State() == AfterUpdate(old(State()), salesCount, salesTotal)
    {
      if current.None? {
        return;
      }
      current := Some(current.value.(salesCount := salesCount, salesTotal := salesTotal));
    }
  }
}
