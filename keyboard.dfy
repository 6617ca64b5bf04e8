/**
 * The on-screen numeric keypad (js/modules/keyboard.js): a text buffer that
 * starts at "0", takes digits and at most one decimal comma, holds at most six
 * digits, and is confirmed against a context that says what the value is for.
 */
module Keyboard {
  import opened Wrappers
  import opened Text
  import opened State

  const MAX_DIGITS: nat := 6
  const MAX_QUANTITY: nat := 999
  const OTHERS_NAME: string := "Outros"

  // The context types the keypad is opened with.
  const QUANTITY: string := "quantity"
  const OTHER_PRICE: string := "otherPrice"
  const OTHERS: string := "others"
  const RECEIVED: string := "received"
  const PAYMENT: string := "payment"
  const WITHDRAWAL: string := "withdrawal"
  const MIXED_CASH: string := "mixedCash"
  const MIXED_EXTERNAL: string := "mixedExternal"

  /** `keyboardContext`: its type ("" when the object is empty) and the optional item index. */
  datatype KeyboardContext = KeyboardContext(kind: string, itemIndex: Option<int>)

  const NO_CONTEXT: KeyboardContext := KeyboardContext("", None)

  /** Why a confirmation was refused; the buffer and context are kept. */
  datatype Rejection = QuantityTooLarge | NotPositive

  /** The form fields the keypad fills for the supplier-payment and withdrawal forms. */
  datatype Field = PaymentValueField | WithdrawalValueField

  /** What a confirmation did beyond the keypad's own state. */
  datatype Effect =
    | Rejected(reason: Rejection)
    /** The context's index names no cart item: the update throws before anything is stored. */
    | NoSuchItem
    /** Forwarded to the cart engine's `editItemQuantity`. */
    | EditItemQuantity(itemIndex: Option<int>, quantity: nat)
    /** Forwarded to the cart engine's `addProduct`. */
    | AddProduct(name: string, price: real)
    | FillField(field: Field, value: real)
    | Applied

  function IntegerPart(b: string): string {
    b[..FirstComma(b)]
  }

  function FractionPart(b: string): string {
    var k := FirstComma(b);
    if k < |b| then b[k + 1..] else []
  }

  /** Number of digits held: the buffer without its comma. */
  function DigitCount(b: string): nat {
    |IntegerPart(b)| + |FractionPart(b)|
  }

  /**
   * The shape every buffer the keypad produces has: digits, then optionally a
   * comma and more digits, at least one digit before the comma, at most six
   * digits in all.
   */
  predicate WellFormed(b: string) {
    && |IntegerPart(b)| >= 1
    && AllDigits(IntegerPart(b))
    && AllDigits(FractionPart(b))
    && DigitCount(b) <= MAX_DIGITS
  }

  /** A well-formed buffer is never empty, starts with a digit and has at most one comma. */
  lemma WellFormedShape(b: string)
    requires WellFormed(b)
    ensures |b| >= 1 && IsDigit(b[0])
    ensures forall i :: 0 <= i < |b| ==> IsDigit(b[i]) || i == FirstComma(b)
    ensures forall i :: 0 <= i < |b| && b[i] == ',' ==> i == FirstComma(b)
    ensures forall i :: 0 <= i < |b| ==> b[i] != '.'
  {
    var k := FirstComma(b);
    var ip := IntegerPart(b);
    assert b[0] == ip[0];
    forall i | 0 <= i < |b| ensures IsDigit(b[i]) || i == k {
      if i < k {
        assert b[i] == ip[i];
      } else if i > k {
        var fp := FractionPart(b);
        assert fp == b[k + 1..];
        assert b[i] == fp[i - k - 1];
      }
    }
  }

  /** `currentInput.replace(/[,.]/, '')`: the buffer without its first ',' or '.'. */
  function StripFirstSeparator(b: string): (r: string)
  {
    if b == [] then []
    else if b[0] == ',' || b[0] == '.' then b[1..]
    else [b[0]] + StripFirstSeparator(b[1..])
  }

  lemma {:induction false} StripLength(b: string)
    requires forall i :: 0 <= i < |b| ==> b[i] != '.'
    ensures |StripFirstSeparator(b)| == |b| - (if FirstComma(b) < |b| then 1 else 0)
  {
    if b != [] && b[0] != ',' {
      StripLength(b[1..]);
    }
  }

  /** The length the source's six-digit cap measures is exactly the digit count. */
  lemma StripLengthIsDigitCount(b: string)
    requires WellFormed(b)
    ensures |StripFirstSeparator(b)| == DigitCount(b)
  {
    WellFormedShape(b);
    StripLength(b);
  }

  /** `parseInt` of the buffer: the integer part. */
  function ParseInt(b: string): (n: nat)
    requires WellFormed(b)
    ensures n < 1000000
  {
    Pow10Monotone(|IntegerPart(b)|, MAX_DIGITS);
    DigitsValue(IntegerPart(b))
  }

  /** `parseFloat` of the buffer with its comma read as a decimal point. */
  function ParseFloat(b: string): (x: real)
    requires WellFormed(b)
    ensures ParseInt(b) as real <= x < ParseInt(b) as real + 1.0
  {
    var f := FractionPart(b);
    FractionBelowOne(DigitsValue(f), Pow10(|f|));
    DigitsValue(IntegerPart(b)) as real + DigitsValue(f) as real / Pow10(|f|) as real
  }

  lemma FractionBelowOne(num: nat, den: nat)
    requires num < den
    ensures 0.0 <= num as real / den as real < 1.0
  {
    var q := num as real / den as real;
    assert q * den as real == num as real;
  }

  /** The confirmed value is positive exactly when the buffer holds a non-zero digit. */
  lemma PositiveIffNonZeroDigit(b: string)
    requires WellFormed(b)
    ensures ParseFloat(b) > 0.0 <==> exists i :: 0 <= i < |b| && IsDigit(b[i]) && b[i] != '0'
  {
    var ip, fp := IntegerPart(b), FractionPart(b);
    var k := FirstComma(b);
    WellFormedShape(b);
    DigitsValueZero(ip);
    DigitsValueZero(fp);
    var num := DigitsValue(fp) as real;
    var den := Pow10(|fp|) as real;
    assert num / den > 0.0 <==> num > 0.0;
    if exists i :: 0 <= i < |b| && IsDigit(b[i]) && b[i] != '0' {
      var i :| 0 <= i < |b| && IsDigit(b[i]) && b[i] != '0';
      if i < k {
        assert ip[i] == b[i];
      } else {
        assert fp[i - k - 1] == b[i];
      }
    } else {
      forall i | 0 <= i < |ip| ensures ip[i] == '0' {
        assert ip[i] == b[i];
      }
      forall i | 0 <= i < |fp| ensures fp[i] == '0' {
        assert fp[i] == b[k + 1 + i];
      }
    }
  }

  /** Where the first comma of `b + [c]` is. */
  lemma FirstCommaAppend(b: string, c: char)
    ensures FirstComma(b + [c]) ==
      if FirstComma(b) < |b| then FirstComma(b) else if c == ',' then |b| else |b| + 1
  {
    var k := FirstComma(b);
    var b' := b + [c];
    if k < |b| {
      FirstCommaUnique(b', k);
    } else if c == ',' {
      FirstCommaUnique(b', |b|);
    } else {
      FirstCommaUnique(b', |b| + 1);
    }
  }

  /** Dropping the last character of a well-formed buffer longer than one keeps it well formed. */
  lemma WellFormedDropLast(b: string)
    requires WellFormed(b) && |b| > 1
    ensures WellFormed(b[..|b| - 1])
  {
    var p := b[..|b| - 1];
    FirstCommaDropLast(b);
    if FirstComma(b) < |b| - 1 {
      assert IntegerPart(p) == IntegerPart(b);
      assert FractionPart(b) == FractionPart(p) + [b[|b| - 1]];
    } else if FirstComma(b) == |b| - 1 {
      assert IntegerPart(p) == IntegerPart(b);
    } else {
      assert IntegerPart(b) == IntegerPart(p) + [b[|b| - 1]];
    }
  }

  /** Where the first comma of `b` without its last character is. */
  lemma FirstCommaDropLast(b: string)
    requires |b| >= 1
    ensures FirstComma(b[..|b| - 1]) == if FirstComma(b) < |b| - 1 then FirstComma(b) else |b| - 1
  {
    var k := FirstComma(b);
    var p := b[..|b| - 1];
    if k < |b| - 1 {
      FirstCommaUnique(p, k);
    } else {
      FirstCommaUnique(p, |b| - 1);
    }
  }

  /** The cart after the item at `i` is given unit price `v` and its line total recomputed. */
  function Repriced(s: Snapshot, i: nat, v: real): (r: Snapshot)
    requires i < |s.cart|
    ensures |r.cart| == |s.cart| && r.cart[i].price == v
    ensures r.cart[i].total == v * s.cart[i].quantity as real
    ensures r.cart[i].name == s.cart[i].name && r.cart[i].quantity == s.cart[i].quantity
    ensures forall j :: 0 <= j < |s.cart| && j != i ==> r.cart[j] == s.cart[j]
    ensures r == s.(cart := r.cart)
  {
    var item := s.cart[i];
    s.(cart := s.cart[i := item.(price := v, total := v * item.quantity as real)])
  }

  /** The `otherPrice` branch once its value and index have been checked. */
  method ApplyOtherPrice(app: AppState, i: nat, v: real) returns (effect: Effect)
    requires i < |app.cart|
    modifies app
    ensures effect == Applied
    ensures app.GetState() == Repriced(old(app.GetState()), i, v)
  {
    var s := app.GetState();
    var repriced := Repriced(s, i, v);
    app.SetState(StateUpdate(cart := Some(repriced.cart)));
    effect := Applied;
  }

  /** The keypad's module-level state: `currentInput` and `keyboardContext`. */
  class VirtualKeyboard {
    var currentInput: string
    var context: KeyboardContext

    ghost predicate Valid()
      reads this
    {
      WellFormed(currentInput)
    }

    constructor ()
      ensures Valid() && currentInput == "0" && context == NO_CONTEXT
    {
      currentInput := "0";
      context := NO_CONTEXT;
    }

    /** `openKeyboard` (state part): set the context and start from "0". */
    method OpenKeyboard(kind: string, itemIndex: Option<int>)
      modifies this
      ensures Valid() && currentInput == "0" && context == KeyboardContext(kind, itemIndex)
    {
      context := KeyboardContext(kind, itemIndex);
      currentInput := "0";
    }

    /** `closeKeyboard` (state part): back to "0" and an empty context. */
    method CloseKeyboard()
      modifies this
      ensures Valid() && currentInput == "0" && context == NO_CONTEXT
    {
      currentInput := "0";
      context := NO_CONTEXT;
    }

    /** `inputDigit`: "0" is replaced; otherwise the digit is appended while fewer than six are held. */
    method InputDigit(d: char)
      requires Valid() && IsDigit(d)
      modifies this
      ensures Valid() && context == old(context)
      ensures old(currentInput) == "0" ==> currentInput == [d]
      ensures old(currentInput) != "0" ==>
        currentInput == if DigitCount(old(currentInput)) >= MAX_DIGITS then old(currentInput)
                        else old(currentInput) + [d]
      ensures DigitCount(currentInput) <= MAX_DIGITS
    {
      if currentInput == "0" {
        currentInput := [d];
        assert FirstComma(currentInput) == 1;
      } else {
        StripLengthIsDigitCount(currentInput);
        if |StripFirstSeparator(currentInput)| >= 6 {
          return;
        }
        FirstCommaAppend(currentInput, d);
        var b := currentInput;
        currentInput := currentInput + [d];
        if FirstComma(b) < |b| {
          assert IntegerPart(currentInput) == IntegerPart(b);
          assert FractionPart(currentInput) == FractionPart(b) + [d];
        } else {
          assert IntegerPart(currentInput) == b + [d];
          assert FractionPart(currentInput) == [];
        }
      }
    }

    /** `inputComma`: a comma is appended only when the buffer has none. */
    method InputComma()
      requires Valid()
      modifies this
      ensures Valid() && context == old(context)
      ensures currentInput == if ',' in old(currentInput) then old(currentInput) else old(currentInput) + ","
      ensures DigitCount(currentInput) == DigitCount(old(currentInput))
    {
      if ',' !in currentInput {
        var b := currentInput;
        FirstCommaAppend(b, ',');
        currentInput := currentInput + ",";
        assert IntegerPart(currentInput) == b;
        assert FractionPart(currentInput) == [];
      }
    }

    /** `backspace`: drop the last character; a one-character buffer becomes "0". */
    method Backspace()
      requires Valid()
      modifies this
      ensures Valid() && context == old(context)
      ensures currentInput == if |old(currentInput)| > 1 then old(currentInput)[..|old(currentInput)| - 1] else "0"
    {
      if |currentInput| > 1 {
        WellFormedDropLast(currentInput);
        currentInput := currentInput[..|currentInput| - 1];
      } else {
        currentInput := "0";
        assert FirstComma(currentInput) == 1;
      }
    }

    /**
     * `confirmKeyboard`: parse the buffer and apply it according to the
     * context. A rejection, or an item index that names no cart item, returns
     * before the keypad is closed; every other path closes it.
     */
    method ConfirmKeyboard(app: AppState) returns (effect: Effect)
      requires Valid()
      modifies this, app
      ensures Valid()
      ensures effect.Rejected? <==>
        || (old(context.kind) == QUANTITY && ParseInt(old(currentInput)) > MAX_QUANTITY)
        || ((old(context.kind) == OTHER_PRICE || old(context.kind) == OTHERS) && ParseFloat(old(currentInput)) <= 0.0)
      ensures effect.Rejected? || effect.NoSuchItem? ==>
        currentInput == old(currentInput) && context == old(context) && app.GetState() == old(app.GetState())
      ensures !effect.Rejected? && !effect.NoSuchItem? ==> currentInput == "0" && context == NO_CONTEXT
      ensures effect.EditItemQuantity? ==>
        effect == EditItemQuantity(old(context.itemIndex), ParseInt(old(currentInput))) && effect.quantity <= MAX_QUANTITY
      ensures effect.AddProduct? ==> effect == AddProduct(OTHERS_NAME, ParseFloat(old(currentInput))) && effect.price > 0.0
      ensures old(context.kind) == QUANTITY && !effect.Rejected? ==> effect.EditItemQuantity?
      ensures old(context.kind) == OTHERS && !effect.Rejected? ==> effect.AddProduct?
      ensures old(context.kind) == OTHER_PRICE && !effect.Rejected? ==>
        var s, i := old(app.GetState()), old(context.itemIndex);
        if i.Some? && 0 <= i.value < |s.cart| then
          effect == Applied && app.GetState() == Repriced(s, i.value, ParseFloat(old(currentInput)))
        else effect == NoSuchItem
      ensures old(context.kind) == RECEIVED ==>
        effect == Applied && app.GetState() == old(app.GetState()).(receivedAmount := ParseFloat(old(currentInput)))
      ensures old(context.kind) == MIXED_CASH ==>
        effect == Applied && app.GetState() == old(app.GetState()).(mixedCashAmount := ParseFloat(old(currentInput)))
      ensures old(context.kind) == MIXED_EXTERNAL ==>
        effect == Applied && app.GetState() == old(app.GetState()).(mixedExternalAmount := ParseFloat(old(currentInput)))
      ensures old(context.kind) == PAYMENT ==> effect == FillField(PaymentValueField, ParseFloat(old(currentInput)))
      ensures old(context.kind) == WITHDRAWAL ==> effect == FillField(WithdrawalValueField, ParseFloat(old(currentInput)))
      ensures effect.EditItemQuantity? || effect.AddProduct? || effect.FillField? ==> app.GetState() == old(app.GetState())
      ensures old(context.kind) !in {QUANTITY, OTHER_PRICE, OTHERS, RECEIVED, PAYMENT, WITHDRAWAL, MIXED_CASH, MIXED_EXTERNAL} ==>
        effect == Applied && app.GetState() == old(app.GetState())
    {
      // The source's isNaN guard cannot fire: a well-formed buffer always parses.
      var valueNum := ParseFloat(currentInput);
      var valueInt := ParseInt(currentInput);
      var kind := context.kind;
      if kind == QUANTITY {
        if valueInt > MAX_QUANTITY {
          return Rejected(QuantityTooLarge);
        }
        effect := EditItemQuantity(context.itemIndex, valueInt);
      } else if kind == OTHER_PRICE {
        if valueNum <= 0.0 {
          return Rejected(NotPositive);
        }
        var i := context.itemIndex;
        if i.None? || !(0 <= i.value < |app.GetState().cart|) {
          return NoSuchItem;
        }
        effect := ApplyOtherPrice(app, i.value, valueNum);
      } else if kind == OTHERS {
        if valueNum <= 0.0 {
          return Rejected(NotPositive);
        }
        effect := AddProduct(OTHERS_NAME, valueNum);
      } else if kind == RECEIVED {
        app.SetState(StateUpdate(receivedAmount := Some(valueNum)));
        effect := Applied;
      } else if kind == PAYMENT {
        effect := FillField(PaymentValueField, valueNum);
      } else if kind == WITHDRAWAL {
        effect := FillField(WithdrawalValueField, valueNum);
      } else if kind == MIXED_CASH {
        app.SetState(StateUpdate(mixedCashAmount := Some(valueNum)));
        effect := Applied;
      } else if kind == MIXED_EXTERNAL {
        app.SetState(StateUpdate(mixedExternalAmount := Some(valueNum)));
        effect := Applied;
      } else {
        effect := Applied;
      }
      CloseKeyboard();
    }
  }

  /** `openReceivedKeyboard`: opens the keypad for the received amount only for a cash sale. */
  method OpenReceivedKeyboard(app: AppState, kb: VirtualKeyboard) returns (shown: bool)
    modifies kb
    ensures shown <==> app.paymentMethod == CASH
    ensures shown ==> kb.Valid() && kb.currentInput == "0" && kb.context == KeyboardContext(RECEIVED, None)
    ensures !shown ==> kb.currentInput == old(kb.currentInput) && kb.context == old(kb.context)
  {
    var paymentMethod := app.GetState().paymentMethod;
    if paymentMethod == "" {
      return false;
    }
    if paymentMethod != CASH {
      return false;
    }
    kb.OpenKeyboard(RECEIVED, None);
    shown := true;
  }
}
