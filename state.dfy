/**
 * The application state record of the register (js/state.js): the cart and
 * payment selection of the sale in progress, the active turn (shift), and one
 * ledger per turn type with five running totals and an append-only history.
 */
module State {
  import opened Wrappers

  const MORNING: string := "morning"
  const AFTERNOON: string := "afternoon"
  /** The payment method string the sale processor treats as cash. */
  const CASH: string := "Cash"

  /** A cart line as the cart engine builds it (the cart engine is not part of this model). */
  datatype CartItem = CartItem(name: string, price: real, quantity: int, total: real, isOther: bool)

  /** The active turn record; `turnType` "" stands for a missing or empty `type`. */
  datatype Turn = Turn(turnType: string, name: string, startTime: string)

  /** One entry of a turn's history; time and date are the locale strings taken when it was made. */
  datatype LedgerEvent =
    | Sale(time: string, date: string, items: seq<CartItem>, total: real, payment: string,
           received: real, change: real)
    | SupplierPayment(time: string, date: string, supplier: string, value: real,
                      fromCashAmount: real, externalAmount: real, paymentType: string)
    | Withdrawal(time: string, date: string, value: real, reason: string)

  /** The per-turn ledger. */
  datatype TurnLedger = TurnLedger(
    totalCash: real,
    totalCard: real,
    totalPaymentsCash: real,
    totalPaymentsExternal: real,
    totalWithdrawals: real,
    history: seq<LedgerEvent>)

  /** The cash expected in the till for a ledger: it is derived, never stored. */
  function Balance(t: TurnLedger): real {
    t.totalCash - t.totalPaymentsCash - t.totalWithdrawals
  }

  /** `getInitialTurnData`: a fresh ledger. */
  function InitialTurnData(): (t: TurnLedger)
    ensures Balance(t) == 0.0 && t.history == []
    ensures t.totalCash == t.totalCard == t.totalPaymentsCash == t.totalPaymentsExternal == t.totalWithdrawals == 0.0
  {
    TurnLedger(0.0, 0.0, 0.0, 0.0, 0.0, [])
  }

  /** The `turnsData` literal: a fresh ledger for each of the two turn types. */
  function FreshTurnsData(): (m: map<string, TurnLedger>)
    ensures m.Keys == {MORNING, AFTERNOON}
    ensures forall k :: k in m ==> m[k] == InitialTurnData()
  {
    map[MORNING := InitialTurnData(), AFTERNOON := InitialTurnData()]
  }

  /** Recording an accepted sale: push the event, add its total to cash or card by method. */
  function RecordSale(t: TurnLedger, sale: LedgerEvent): (r: TurnLedger)
    requires sale.Sale?
    ensures r.history == t.history + [sale]
    ensures Balance(r) == Balance(t) + (if sale.payment == CASH then sale.total else 0.0)
    ensures r.totalCard == t.totalCard + (if sale.payment == CASH then 0.0 else sale.total)
    ensures r.totalPaymentsCash == t.totalPaymentsCash && r.totalPaymentsExternal == t.totalPaymentsExternal
    ensures r.totalWithdrawals == t.totalWithdrawals
  {
    var pushed := t.(history := t.history + [sale]);
    if sale.payment == CASH then pushed.(totalCash := t.totalCash + sale.total)
    else pushed.(totalCard := t.totalCard + sale.total)
  }

  /**
   * Recording an accepted supplier payment: push the event; each portion is
   * added to its total only when it is positive.
   */
  function RecordPayment(t: TurnLedger, payment: LedgerEvent): (r: TurnLedger)
    requires payment.SupplierPayment?
    ensures r.history == t.history + [payment]
    ensures Balance(r) == Balance(t) - (if payment.fromCashAmount > 0.0 then payment.fromCashAmount else 0.0)
    ensures Balance(r) <= Balance(t)
    ensures r.totalPaymentsExternal == t.totalPaymentsExternal
                                       + (if payment.externalAmount > 0.0 then payment.externalAmount else 0.0)
    ensures r.totalCash == t.totalCash && r.totalCard == t.totalCard && r.totalWithdrawals == t.totalWithdrawals
  {
    var pushed := t.(history := t.history + [payment]);
    var withCash :=
      if payment.fromCashAmount > 0.0
      then pushed.(totalPaymentsCash := t.totalPaymentsCash + payment.fromCashAmount)
      else pushed;
    if payment.externalAmount > 0.0
    then withCash.(totalPaymentsExternal := t.totalPaymentsExternal + payment.externalAmount)
    else withCash
  }

  /** Recording an accepted withdrawal: push the event and add its value to the withdrawals. */
  function RecordWithdrawal(t: TurnLedger, withdrawal: LedgerEvent): (r: TurnLedger)
    requires withdrawal.Withdrawal?
    ensures r.history == t.history + [withdrawal]
    ensures Balance(r) == Balance(t) - withdrawal.value
    ensures r.totalCash == t.totalCash && r.totalCard == t.totalCard
    ensures r.totalPaymentsCash == t.totalPaymentsCash && r.totalPaymentsExternal == t.totalPaymentsExternal
  {
    t.(history := t.history + [withdrawal], totalWithdrawals := t.totalWithdrawals + withdrawal.value)
  }

  /** Card and external totals never enter the cash balance. */
  lemma BalanceIgnoresCardAndExternal(t: TurnLedger, card: real, external: real)
    ensures Balance(t.(totalCard := card, totalPaymentsExternal := external)) == Balance(t)
  {
  }

  /** How far an event moves the cash expected in the till. */
  function CashEffect(e: LedgerEvent): real {
    match e
    case Sale(_, _, _, total, payment, _, _) => if payment == CASH then total else 0.0
    case SupplierPayment(_, _, _, _, fromCash, _, _) => if fromCash > 0.0 then -fromCash else 0.0
    case Withdrawal(_, _, value, _) => -value
  }

  /** Booking one event into a ledger, by the processor that creates its kind. */
  function Record(t: TurnLedger, e: LedgerEvent): (r: TurnLedger)
    ensures r.history == t.history + [e]
    ensures Balance(r) == Balance(t) + CashEffect(e)
  {
    match e
    case Sale(_, _, _, _, _, _, _) => RecordSale(t, e)
    case SupplierPayment(_, _, _, _, _, _, _) => RecordPayment(t, e)
    case Withdrawal(_, _, _, _) => RecordWithdrawal(t, e)
  }

  /** A ledger after booking `es` in order. */
  function Replay(t: TurnLedger, es: seq<LedgerEvent>): TurnLedger
    decreases |es|
  {
    if es == [] then t else Record(Replay(t, es[..|es| - 1]), es[|es| - 1])
  }

  function TotalCashEffect(es: seq<LedgerEvent>): real
    decreases |es|
  {
    if es == [] then 0.0 else TotalCashEffect(es[..|es| - 1]) + CashEffect(es[|es| - 1])
  }

  /**
   * The history is exactly the booked events in order, and the balance is the
   * starting balance plus what the events moved: the running totals never
   * drift from the history.
   */
  lemma {:induction false} ReplayBalance(t: TurnLedger, es: seq<LedgerEvent>)
    ensures Replay(t, es).history == t.history + es
    ensures Balance(Replay(t, es)) == Balance(t) + TotalCashEffect(es)
    decreases |es|
  {
    if es != [] {
      var init := es[..|es| - 1];
      ReplayBalance(t, init);
      assert init + [es[|es| - 1]] == es;
    }
  }

  /** A deep copy of the whole state record: a value, so changing it cannot reach the store. */
  datatype Snapshot = Snapshot(
    cart: seq<CartItem>,
    total: real,
    paymentMethod: string,
    receivedAmount: real,
    currentTurn: Option<Turn>,
    turnsData: map<string, TurnLedger>,
    currentPaymentType: string,
    mixedCashAmount: real,
    mixedExternalAmount: real,
    lastCreatedSale: Option<LedgerEvent>,
    lastCreatedPayment: Option<LedgerEvent>,
    lastCreatedWithdrawal: Option<LedgerEvent>)

  /** The keys handed to `setState`; a key left at None is not part of the update. */
  datatype StateUpdate = StateUpdate(
    cart: Option<seq<CartItem>> := None,
    total: Option<real> := None,
    paymentMethod: Option<string> := None,
    receivedAmount: Option<real> := None,
    currentTurn: Option<Option<Turn>> := None,
    turnsData: Option<map<string, TurnLedger>> := None,
    currentPaymentType: Option<string> := None,
    mixedCashAmount: Option<real> := None,
    mixedExternalAmount: Option<real> := None,
    lastCreatedSale: Option<Option<LedgerEvent>> := None,
    lastCreatedPayment: Option<Option<LedgerEvent>> := None,
    lastCreatedWithdrawal: Option<Option<LedgerEvent>> := None)

  /** There is an active turn with a non-empty type (the processors' first guard). */
  predicate HasActiveTurn(s: Snapshot) {
    s.currentTurn.Some? && s.currentTurn.value.turnType != ""
  }

  /** `getCurrentTurnData` on a snapshot. */
  function CurrentTurnDataOf(s: Snapshot): (r: Option<TurnLedger>)
    ensures r.Some? <==> s.currentTurn.Some? && s.currentTurn.value.turnType in s.turnsData
    ensures r.Some? ==> r.value == s.turnsData[s.currentTurn.value.turnType]
  {
    if s.currentTurn.None? || s.currentTurn.value.turnType !in s.turnsData then None
    else Some(s.turnsData[s.currentTurn.value.turnType])
  }

  /** `getCashBalance` on a snapshot. */
  function CashBalanceOf(s: Snapshot): (b: real)
    ensures s.currentTurn.None? ==> b == 0.0
    ensures CurrentTurnDataOf(s).None? ==> b == 0.0
    ensures CurrentTurnDataOf(s).Some? ==> b == Balance(CurrentTurnDataOf(s).value)
  {
    match CurrentTurnDataOf(s)
    case None => 0.0
    case Some(t) => Balance(t)
  }

  /**
   * The state after `e` is booked into the current turn's ledger: the event is
   * appended to that ledger, its totals move, and the `lastCreated…` key of the
   * event's kind names it. Without a current ledger nothing changes.
   */
  function Booked(s: Snapshot, e: LedgerEvent): (r: Snapshot)
    ensures CurrentTurnDataOf(s).None? ==> r == s
    ensures CurrentTurnDataOf(s).Some? ==> CurrentTurnDataOf(r) == Some(Record(CurrentTurnDataOf(s).value, e))
    ensures CurrentTurnDataOf(s).Some? ==> CashBalanceOf(r) == CashBalanceOf(s) + CashEffect(e)
    ensures r.turnsData.Keys == s.turnsData.Keys
    ensures forall k :: k in s.turnsData && k != s.currentTurn.GetOr(Turn("", "", "")).turnType ==>
      r.turnsData[k] == s.turnsData[k]
    ensures CurrentTurnDataOf(s).Some? ==>
      (e.Sale? ==> r.lastCreatedSale == Some(e))
      && (e.SupplierPayment? ==> r.lastCreatedPayment == Some(e))
      && (e.Withdrawal? ==> r.lastCreatedWithdrawal == Some(e))
    ensures r.(turnsData := s.turnsData, lastCreatedSale := s.lastCreatedSale,
               lastCreatedPayment := s.lastCreatedPayment, lastCreatedWithdrawal := s.lastCreatedWithdrawal) == s
    ensures !e.Sale? ==> r.lastCreatedSale == s.lastCreatedSale
    ensures !e.SupplierPayment? ==> r.lastCreatedPayment == s.lastCreatedPayment
    ensures !e.Withdrawal? ==> r.lastCreatedWithdrawal == s.lastCreatedWithdrawal
  {
    match CurrentTurnDataOf(s)
    case None => s
    case Some(t) =>
      var booked := s.(turnsData := s.turnsData[s.currentTurn.value.turnType := Record(t, e)]);
      match e
      case Sale(_, _, _, _, _, _, _) => booked.(lastCreatedSale := Some(e))
      case SupplierPayment(_, _, _, _, _, _, _) => booked.(lastCreatedPayment := Some(e))
      case Withdrawal(_, _, _, _) => booked.(lastCreatedWithdrawal := Some(e))
  }

  /**
   * The module-level `appState` record. The keys after `turnsData` are the ones
   * other modules merge in through `setState`; in the source they start out
   * undefined, here as ""/0/None.
   */
  class AppState {
    var cart: seq<CartItem>
    var total: real
    var paymentMethod: string
    var receivedAmount: real
    var currentTurn: Option<Turn>
    var turnsData: map<string, TurnLedger>
    var currentPaymentType: string
    var mixedCashAmount: real
    var mixedExternalAmount: real
    var lastCreatedSale: Option<LedgerEvent>
    var lastCreatedPayment: Option<LedgerEvent>
    var lastCreatedWithdrawal: Option<LedgerEvent>

    /** The record as the module literal creates it. */
    constructor ()
      ensures GetState() == Snapshot([], 0.0, "", 0.0, None, FreshTurnsData(), "", 0.0, 0.0, None, None, None)
    {
      cart, total, paymentMethod, receivedAmount := [], 0.0, "", 0.0;
      currentTurn := None;
      turnsData := FreshTurnsData();
      currentPaymentType, mixedCashAmount, mixedExternalAmount := "", 0.0, 0.0;
      lastCreatedSale, lastCreatedPayment, lastCreatedWithdrawal := None, None, None;
    }

    /** `getState`: a deep copy of every field. */
    function GetState(): (s: Snapshot)
      reads this
      ensures s.cart == cart && s.total == total && s.paymentMethod == paymentMethod
      ensures s.receivedAmount == receivedAmount && s.currentTurn == currentTurn && s.turnsData == turnsData
      ensures s.currentPaymentType == currentPaymentType
      ensures s.mixedCashAmount == mixedCashAmount && s.mixedExternalAmount == mixedExternalAmount
      ensures s.lastCreatedSale == lastCreatedSale && s.lastCreatedPayment == lastCreatedPayment
      ensures s.lastCreatedWithdrawal == lastCreatedWithdrawal
    {
      Snapshot(cart, total, paymentMethod, receivedAmount, currentTurn, turnsData,
               currentPaymentType, mixedCashAmount, mixedExternalAmount,
               lastCreatedSale, lastCreatedPayment, lastCreatedWithdrawal)
    }

    /** `setState`: every key given in `u` is overwritten, every other field is left as it was. */
    method SetState(u: StateUpdate)
      modifies this
      ensures cart == u.cart.GetOr(old(cart)) && total == u.total.GetOr(old(total))
      ensures paymentMethod == u.paymentMethod.GetOr(old(paymentMethod))
      ensures receivedAmount == u.receivedAmount.GetOr(old(receivedAmount))
      ensures currentTurn == u.currentTurn.GetOr(old(currentTurn))
      ensures turnsData == u.turnsData.GetOr(old(turnsData))
      ensures currentPaymentType == u.currentPaymentType.GetOr(old(currentPaymentType))
      ensures mixedCashAmount == u.mixedCashAmount.GetOr(old(mixedCashAmount))
      ensures mixedExternalAmount == u.mixedExternalAmount.GetOr(old(mixedExternalAmount))
      ensures lastCreatedSale == u.lastCreatedSale.GetOr(old(lastCreatedSale))
      ensures lastCreatedPayment == u.lastCreatedPayment.GetOr(old(lastCreatedPayment))
      ensures lastCreatedWithdrawal == u.lastCreatedWithdrawal.GetOr(old(lastCreatedWithdrawal))
    {
      cart := u.cart.GetOr(cart);
      total := u.total.GetOr(total);
      paymentMethod := u.paymentMethod.GetOr(paymentMethod);
      receivedAmount := u.receivedAmount.GetOr(receivedAmount);
      currentTurn := u.currentTurn.GetOr(currentTurn);
      turnsData := u.turnsData.GetOr(turnsData);
      currentPaymentType := u.currentPaymentType.GetOr(currentPaymentType);
      mixedCashAmount := u.mixedCashAmount.GetOr(mixedCashAmount);
      mixedExternalAmount := u.mixedExternalAmount.GetOr(mixedExternalAmount);
      lastCreatedSale := u.lastCreatedSale.GetOr(lastCreatedSale);
      lastCreatedPayment := u.lastCreatedPayment.GetOr(lastCreatedPayment);
      lastCreatedWithdrawal := u.lastCreatedWithdrawal.GetOr(lastCreatedWithdrawal);
    }

    /** `resetCart`: clears the sale in progress; the turn and the ledgers are kept. */
    method ResetCart()
      modifies this
      ensures GetState() == old(GetState()).(cart := [], total := 0.0, paymentMethod := "", receivedAmount := 0.0)
    {
      var turn := currentTurn;
      cart := [];
      total := 0.0;
      paymentMethod := "";
      receivedAmount := 0.0;
      currentTurn := turn;
    }

    /** `getCurrentTurnData`. */
    function CurrentTurnData(): (r: Option<TurnLedger>)
      reads this
      ensures r.None? <==> currentTurn.None? || currentTurn.value.turnType !in turnsData
      ensures r.Some? ==> r.value == turnsData[currentTurn.value.turnType]
    {
      CurrentTurnDataOf(GetState())
    }

    /** `getCashBalance`: 0 without a current ledger, else cash sales minus cash outflows. */
    function CashBalance(): (b: real)
      reads this
      ensures CurrentTurnData().None? ==> b == 0.0
      ensures CurrentTurnData().Some? ==>
        b == CurrentTurnData().value.totalCash - CurrentTurnData().value.totalPaymentsCash
             - CurrentTurnData().value.totalWithdrawals
    {
      CashBalanceOf(GetState())
    }

    /** `initializeState`: everything back to the start-up values, with fresh ledgers. */
    method InitializeState()
      modifies this
      ensures cart == [] && total == 0.0 && paymentMethod == "" && receivedAmount == 0.0
      ensures currentTurn == None && turnsData == FreshTurnsData()
      ensures CashBalance() == 0.0
      ensures currentPaymentType == old(currentPaymentType)
      ensures mixedCashAmount == old(mixedCashAmount) && mixedExternalAmount == old(mixedExternalAmount)
      ensures lastCreatedSale == old(lastCreatedSale) && lastCreatedPayment == old(lastCreatedPayment)
      ensures lastCreatedWithdrawal == old(lastCreatedWithdrawal)
    {
      cart := [];
      total := 0.0;
      paymentMethod := "";
      receivedAmount := 0.0;
      currentTurn := None;
      turnsData := FreshTurnsData();
    }
  }
}
