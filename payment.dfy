/**
 * The transaction processors (js/modules/payment.js): sale, supplier payment
 * and withdrawal. Each one runs its guards in order and returns with the state
 * untouched on the first that fails; an accepted call books exactly one event
 * into the current turn's ledger.
 */
module Payment {
  import opened Wrappers
  import opened State
  import Keyboard

  /** The supplier-payment types: from the till, from outside it, or split. */
  const PAY_CASH: string := "cash"
  const PAY_EXTERNAL: string := "external"
  const PAY_MIXED: string := "mixed"
  /** The supplier or reason recorded when the form field is empty. */
  const NOT_INFORMED: string := "Não informado"
  /** Tolerance between the split portions and the payment value. */
  const SPLIT_TOLERANCE: real := 0.01

  /** Why a processor refused; the notification text is not modelled. */
  datatype Reason =
    | NoActiveTurn
    | EmptyCart
    | NoPaymentMethod
    | InsufficientReceived
    | MissingValue
    | InsufficientBalance
    | SplitMismatch
    | InvalidValue

  datatype Status = Accepted(event: LedgerEvent) | Rejected(reason: Reason)

  function Abs(x: real): real {
    if x < 0.0 then -x else x
  }

  /** Books `e` into the current turn's ledger when there is one. */
  method Book(app: AppState, e: LedgerEvent)
    modifies app
    ensures app.GetState() == Booked(old(app.GetState()), e)
  {
    var s := app.GetState();
    var ledger := CurrentTurnDataOf(s);
    if ledger.Some? {
      var turnsData := s.turnsData[s.currentTurn.value.turnType := Record(ledger.value, e)];
      match e
      case Sale(_, _, _, _, _, _, _) =>
        app.SetState(StateUpdate(turnsData := Some(turnsData), lastCreatedSale := Some(Some(e))));
      case SupplierPayment(_, _, _, _, _, _, _) =>
        app.SetState(StateUpdate(turnsData := Some(turnsData), lastCreatedPayment := Some(Some(e))));
      case Withdrawal(_, _, _, _) =>
        app.SetState(StateUpdate(turnsData := Some(turnsData), lastCreatedWithdrawal := Some(Some(e))));
    }
  }

  /**
   * `selectPayment` (state part): the method is stored and the received amount
   * zeroed; choosing cash opens the keypad for the received amount.
   */
  method SelectPayment(app: AppState, kb: Keyboard.VirtualKeyboard, paymentMethod: string)
    modifies app, kb
    ensures app.GetState() == old(app.GetState()).(paymentMethod := paymentMethod, receivedAmount := 0.0)
    ensures paymentMethod == CASH ==>
      kb.Valid() && kb.currentInput == "0" && kb.context == Keyboard.KeyboardContext(Keyboard.RECEIVED, None)
    ensures paymentMethod != CASH ==> kb.currentInput == old(kb.currentInput) && kb.context == old(kb.context)
  {
    app.SetState(StateUpdate(paymentMethod := Some(paymentMethod), receivedAmount := Some(0.0)));
    if paymentMethod == CASH {
      app.SetState(StateUpdate(paymentMethod := Some(paymentMethod)));
      var _ := Keyboard.OpenReceivedKeyboard(app, kb);
    }
  }

  /** `clearCart` (state part): the sale in progress is reset. */
  method ClearCart(app: AppState)
    modifies app
    ensures app.GetState() == old(app.GetState()).(cart := [], total := 0.0, paymentMethod := "", receivedAmount := 0.0)
    ensures app.currentTurn == old(app.currentTurn) && app.turnsData == old(app.turnsData)
  {
    app.ResetCart();
  }

  /**
   * `processNext`: a sale needs an active turn, a non-empty cart, a payment
   * method and, for cash, enough received. The accepted sale is booked and
   * the cart cleared, even when the turn has no ledger to book it into.
   */
  method ProcessNext(app: AppState, time: string, date: string) returns (status: Status)
    modifies app
    ensures !HasActiveTurn(old(app.GetState())) ==> status == Rejected(NoActiveTurn)
    ensures HasActiveTurn(old(app.GetState())) && old(app.cart) == [] ==> status == Rejected(EmptyCart)
    ensures HasActiveTurn(old(app.GetState())) && old(app.cart) != [] && old(app.paymentMethod) == "" ==>
      status == Rejected(NoPaymentMethod)
    ensures (HasActiveTurn(old(app.GetState())) && old(app.cart) != [] && old(app.paymentMethod) == CASH
             && old(app.receivedAmount) < old(app.total)) ==> status == Rejected(InsufficientReceived)
    ensures status.Rejected? <==>
      || !HasActiveTurn(old(app.GetState())) || old(app.cart) == [] || old(app.paymentMethod) == ""
      || (old(app.paymentMethod) == CASH && old(app.receivedAmount) < old(app.total))
    ensures status.Rejected? ==> app.GetState() == old(app.GetState())
    ensures status.Accepted? ==>
      && status.event.Sale?
      && status.event.time == time && status.event.date == date
      && status.event.items == old(app.cart) && status.event.total == old(app.total)
      && status.event.payment == old(app.paymentMethod)
      && status.event.received - status.event.change == status.event.total
      && (status.event.payment == CASH ==> status.event.received == old(app.receivedAmount) && status.event.change >= 0.0)
      && (status.event.payment != CASH ==> status.event.change == 0.0)
    ensures status.Accepted? ==>
      app.GetState() == Booked(old(app.GetState()), status.event)
                          .(cart := [], total := 0.0, paymentMethod := "", receivedAmount := 0.0)
    ensures status.Accepted? ==> app.currentTurn == old(app.currentTurn)
    ensures status.Accepted? && old(app.CurrentTurnData()).Some? ==>
      app.CashBalance() == old(app.CashBalance()) + (if old(app.paymentMethod) == CASH then old(app.total) else 0.0)
  {
    var s := app.GetState();
    if !HasActiveTurn(s) {
      return Rejected(NoActiveTurn);
    }
    if s.cart == [] {
      return Rejected(EmptyCart);
    }
    if s.paymentMethod == "" {
      return Rejected(NoPaymentMethod);
    }
    var change := 0.0;
    if s.paymentMethod == CASH {
      if s.receivedAmount < s.total {
        return Rejected(InsufficientReceived);
      }
      change := s.receivedAmount - s.total;
    }
    var received := if s.paymentMethod == CASH then s.receivedAmount else s.total;
    var sale := Sale(time, date, s.cart, s.total, s.paymentMethod, received, change);
    Book(app, sale);
    ClearCart(app);
    status := Accepted(sale);
  }

  /** `selectPaymentType` (state part): the type is stored and both split portions zeroed. */
  method SelectPaymentType(app: AppState, paymentType: string)
    modifies app
    ensures app.GetState() == old(app.GetState()).(currentPaymentType := paymentType,
                                                   mixedCashAmount := 0.0, mixedExternalAmount := 0.0)
  {
    app.SetState(StateUpdate(currentPaymentType := Some(paymentType), mixedCashAmount := Some(0.0),
                             mixedExternalAmount := Some(0.0)));
  }

  /**
   * `submitPayment`: a supplier payment of `paymentValue` (None for an empty
   * field). A cash payment may not exceed the till; an external one is not
   * checked; a split one must add up to the value within the tolerance and its
   * cash portion may not exceed the till. Any other type records no portions.
   */
  method SubmitPayment(app: AppState, supplierName: string, paymentValue: Option<real>,
                       time: string, date: string) returns (status: Status)
    modifies app
    ensures !HasActiveTurn(old(app.GetState())) ==> status == Rejected(NoActiveTurn)
    ensures HasActiveTurn(old(app.GetState())) && (paymentValue.None? || old(app.currentPaymentType) == "") ==>
      status == Rejected(MissingValue)
    ensures status.Rejected? <==>
      || !HasActiveTurn(old(app.GetState())) || paymentValue.None? || old(app.currentPaymentType) == ""
      || (old(app.currentPaymentType) == PAY_CASH && paymentValue.value > old(app.CashBalance()))
      || (old(app.currentPaymentType) == PAY_MIXED
          && (Abs(old(app.mixedCashAmount) + old(app.mixedExternalAmount) - paymentValue.value) > SPLIT_TOLERANCE
              || old(app.mixedCashAmount) > old(app.CashBalance())))
    ensures status.Rejected? ==> app.GetState() == old(app.GetState())
    ensures status.Accepted? ==>
      && status.event.SupplierPayment?
      && status.event.time == time && status.event.date == date
      && status.event.value == paymentValue.value
      && status.event.paymentType == old(app.currentPaymentType)
      && status.event.supplier == (if supplierName == "" then NOT_INFORMED else supplierName)
      && status.event.fromCashAmount ==
         (if old(app.currentPaymentType) == PAY_CASH then paymentValue.value
          else if old(app.currentPaymentType) == PAY_MIXED then old(app.mixedCashAmount) else 0.0)
      && status.event.externalAmount ==
         (if old(app.currentPaymentType) == PAY_EXTERNAL then paymentValue.value
          else if old(app.currentPaymentType) == PAY_MIXED then old(app.mixedExternalAmount) else 0.0)
      && (status.event.fromCashAmount > 0.0 ==> status.event.fromCashAmount <= old(app.CashBalance()))
    ensures status.Accepted? ==> app.GetState() == Booked(old(app.GetState()), status.event)
    ensures status.Accepted? ==> app.CashBalance() <= old(app.CashBalance())
    ensures status.Accepted? && old(app.CashBalance()) >= 0.0 ==> app.CashBalance() >= 0.0
  {
    var s := app.GetState();
    if !HasActiveTurn(s) {
      return Rejected(NoActiveTurn);
    }
    if paymentValue.None? || s.currentPaymentType == "" {
      return Rejected(MissingValue);
    }
    var value := paymentValue.value;
    var cashBalance := CashBalanceOf(s);
    var fromCashAmount := 0.0;
    var externalAmount := 0.0;
    if s.currentPaymentType == PAY_CASH {
      fromCashAmount := value;
      if value > cashBalance {
        return Rejected(InsufficientBalance);
      }
    } else if s.currentPaymentType == PAY_EXTERNAL {
      externalAmount := value;
    } else if s.currentPaymentType == PAY_MIXED {
      fromCashAmount := s.mixedCashAmount;
      externalAmount := s.mixedExternalAmount;
      if Abs(fromCashAmount + externalAmount - value) > SPLIT_TOLERANCE {
        return Rejected(SplitMismatch);
      }
      if fromCashAmount > cashBalance {
        return Rejected(InsufficientBalance);
      }
    }
    var supplier := if supplierName == "" then NOT_INFORMED else supplierName;
    var payment := SupplierPayment(time, date, supplier, value, fromCashAmount, externalAmount, s.currentPaymentType);
    Book(app, payment);
    status := Accepted(payment);
  }

  /**
   * `submitWithdrawal`: a withdrawal of `withdrawalValue` (None for an empty
   * field) must be positive and at most the cash in the till.
   */
  method SubmitWithdrawal(app: AppState, withdrawalValue: Option<real>, reason: string,
                          time: string, date: string) returns (status: Status)
    modifies app
    ensures !HasActiveTurn(old(app.GetState())) ==> status == Rejected(NoActiveTurn)
    ensures HasActiveTurn(old(app.GetState())) && withdrawalValue.None? ==> status == Rejected(MissingValue)
    ensures status.Rejected? <==>
      || !HasActiveTurn(old(app.GetState())) || withdrawalValue.None?
      || withdrawalValue.value <= 0.0 || withdrawalValue.value > old(app.CashBalance())
    ensures status.Rejected? ==> app.GetState() == old(app.GetState())
    ensures status.Accepted? ==>
      status.event == Withdrawal(time, date, withdrawalValue.value, if reason == "" then NOT_INFORMED else reason)
    ensures status.Accepted? ==> app.GetState() == Booked(old(app.GetState()), status.event)
    ensures status.Accepted? ==>
      0.0 <= app.CashBalance() == old(app.CashBalance()) - withdrawalValue.value < old(app.CashBalance())
  {
    var s := app.GetState();
    if !HasActiveTurn(s) {
      return Rejected(NoActiveTurn);
    }
    if withdrawalValue.None? {
      return Rejected(MissingValue);
    }
    var value := withdrawalValue.value;
    var cashBalance := CashBalanceOf(s);
    if value <= 0.0 || value > cashBalance {
      return Rejected(InvalidValue);
    }
    var withdrawal := Withdrawal(time, date, value, if reason == "" then NOT_INFORMED else reason);
    Book(app, withdrawal);
    status := Accepted(withdrawal);
  }
}
