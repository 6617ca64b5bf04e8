/**
 * The standalone register page (script.js): a sale of standard products,
 * merged by name, and custom "Outros" amounts, never merged; a numeric keypad
 * that edits a product count, a custom amount or the received amount; and a
 * sale history kept newest first.
 */
module LegacyRegister {
  import opened Wrappers
  import opened Text
  import opened LegacyMoney

  const OTHERS_NAME: string := "Outros"
  /** The keypad buffer takes at most nine key presses. */
  const MAX_BUFFER: nat := 9
  // The keypad modes.
  const INTEGER: string := "integer"
  const CURRENCY_CUSTOM: string := "currency-custom"
  const CURRENCY_RECEIVED: string := "currency-received"

  /** A sale line; custom lines carry their amount as `price`. */
  datatype LegacyItem = LegacyItem(name: string, price: real, qty: nat, custom: bool)

  /** The input the keypad was opened for: a product's count, the custom amount or the received amount. */
  datatype InputField = CountInput(product: string, price: real) | CustomInput | ReceivedInput

  /** One finalized sale, newest first in the history (its text formatting is not modelled). */
  datatype HistoryEntry = HistoryEntry(timestamp: string, items: seq<LegacyItem>, total: real,
                                       received: real, change: real)

  /** What a line adds to the total: a custom amount as is, a product as quantity times price. */
  function LineValue(i: LegacyItem): real {
    if i.custom then i.price else i.qty as real * i.price
  }

  /** The `reduce` of `updateTotal`, folding from the left. */
  function SaleTotal(items: seq<LegacyItem>): real
    decreases |items|
  {
    if items == [] then 0.0 else SaleTotal(items[..|items| - 1]) + LineValue(items[|items| - 1])
  }

  /** Replacing one line moves the total by the difference of the two lines. */
  lemma {:induction false} SaleTotalUpdate(items: seq<LegacyItem>, i: nat, x: LegacyItem)
    requires i < |items|
    ensures SaleTotal(items[i := x]) == SaleTotal(items) - LineValue(items[i]) + LineValue(x)
    decreases |items|
  {
    var n := |items| - 1;
    if i < n {
      SaleTotalUpdate(items[..n], i, x);
      assert items[i := x][..n] == items[..n][i := x];
    } else {
      assert items[i := x][..n] == items[..n];
    }
  }

  /** Removing one line takes its value off the total. */
  lemma {:induction false} SaleTotalRemove(items: seq<LegacyItem>, i: nat)
    requires i < |items|
    ensures SaleTotal(items[..i] + items[i + 1..]) == SaleTotal(items) - LineValue(items[i])
    decreases |items|
  {
    var n := |items| - 1;
    if i < n {
      var rest := items[..i] + items[i + 1..];
      SaleTotalRemove(items[..n], i);
      assert rest[..|rest| - 1] == items[..n][..i] + items[..n][i + 1..];
      assert rest[|rest| - 1] == items[n];
    } else {
      assert items[..i] + items[i + 1..] == items[..n];
    }
  }

  /** At most one standard line per product name; custom lines are "Outros" × 1; standard quantities are positive. */
  predicate WellFormedItems(items: seq<LegacyItem>) {
    && (forall i, j :: 0 <= i < j < |items| && !items[i].custom && !items[j].custom ==> items[i].name != items[j].name)
    && (forall i :: 0 <= i < |items| && items[i].custom ==> items[i].name == OTHERS_NAME && items[i].qty == 1)
    && (forall i :: 0 <= i < |items| && !items[i].custom ==> items[i].qty >= 1)
  }

  lemma WellFormedSetQty(items: seq<LegacyItem>, k: nat, qty: nat)
    requires WellFormedItems(items) && k < |items| && !items[k].custom && qty >= 1
    ensures WellFormedItems(items[k := items[k].(qty := qty)])
  {
  }

  lemma WellFormedAppend(items: seq<LegacyItem>, x: LegacyItem)
    requires WellFormedItems(items)
    requires x.custom ==> x.name == OTHERS_NAME && x.qty == 1
    requires !x.custom ==> x.qty >= 1 && forall j :: 0 <= j < |items| ==> items[j].name != x.name || items[j].custom
    ensures WellFormedItems(items + [x])
  {
  }

  lemma WellFormedRemove(items: seq<LegacyItem>, k: nat)
    requires WellFormedItems(items) && k < |items|
    ensures WellFormedItems(items[..k] + items[k + 1..])
  {
    var r := items[..k] + items[k + 1..];
    forall i | 0 <= i < |r| ensures r[i] == items[if i < k then i else i + 1] {
    }
  }

  /** `sale.items.find(x => x.name === name && !x.custom)`, as an index. */
  function StandardIndex(items: seq<LegacyItem>, name: string): (r: Option<nat>)
    ensures r.Some? ==> r.value < |items| && items[r.value].name == name && !items[r.value].custom
    ensures r.Some? ==> forall j :: 0 <= j < r.value ==> items[j].name != name || items[j].custom
    ensures r.None? ==> forall j :: 0 <= j < |items| ==> items[j].name != name || items[j].custom
  {
    if items == [] then None
    else if items[0].name == name && !items[0].custom then Some(0)
    else match StandardIndex(items[1..], name)
      case None => None
      case Some(k) => Some(k + 1)
  }

  /** The closure state of the page: `sale`, `history`, the keypad variables and each product's count. */
  class Register {
    var items: seq<LegacyItem>
    var total: real
    var history: seq<HistoryEntry>
    var activeInput: Option<InputField>
    var mode: string
    var buffer: string
    /** The two globals `showKeypad` assigns (see ShowKeypadAsWritten). */
    var activeMode: string
    var inputBuffer: string
    /** Each product's count display, by product name. */
    var counts: map<string, nat>
    var finalizeDisabled: bool
    /** The text of the received-amount field. */
    var receivedText: string

    ghost predicate Valid()
      reads this
    {
      && total == SaleTotal(items)
      && finalizeDisabled == (|items| == 0)
      && WellFormedItems(items)
      && AllDigits(buffer) && |buffer| <= MAX_BUFFER
    }

    /** Page start-up: the stored history, an empty sale and zero counts. */
    constructor (products: set<string>, stored: seq<HistoryEntry>)
      ensures Valid()
      ensures items == [] && total == 0.0 && history == stored && finalizeDisabled
      ensures counts.Keys == products && forall p :: p in counts ==> counts[p] == 0
      ensures activeInput == None && mode == "" && buffer == "" && receivedText == ""
    {
      items := [];
      total := 0.0;
      history := stored;
      activeInput := None;
      mode := "";
      buffer := "";
      activeMode := "";
      inputBuffer := "";
      counts := map p | p in products :: 0;
      finalizeDisabled := true;
      receivedText := "";
    }

    /** The keypad is editing a product's count shown on the page. */
    predicate EditingCount()
      reads this
    {
      mode == INTEGER && activeInput.Some? && activeInput.value.CountInput? && activeInput.value.product in counts
    }

    /** Outside integer mode the keys write the formatted buffer into the active field; this is the received field. */
    predicate EditingReceived()
      reads this
    {
      mode != INTEGER && activeInput == Some(ReceivedInput)
    }

    /** `resetSale`: no items, total 0, every count 0, an empty received field, finalize disabled. */
    method ResetSale()
      requires Valid()
      modifies this
      ensures Valid()
      ensures items == [] && total == 0.0 && finalizeDisabled && receivedText == ""
      ensures counts.Keys == old(counts.Keys) && forall p :: p in counts ==> counts[p] == 0
      ensures history == old(history) && activeInput == old(activeInput)
      ensures mode == old(mode) && buffer == old(buffer)
      ensures activeMode == old(activeMode) && inputBuffer == old(inputBuffer)
    {
      items := [];
      total := 0.0;
      counts := map p | p in counts :: 0;
      finalizeDisabled := true;
      receivedText := "";
    }

    /** `updateTotal`: the total is recomputed over the items; finalize is disabled exactly when there are none. */
    method UpdateTotal()
      modifies this
      ensures total == SaleTotal(items) && finalizeDisabled == (|items| == 0)
      ensures items == old(items) && history == old(history) && counts == old(counts)
      ensures activeInput == old(activeInput) && mode == old(mode) && buffer == old(buffer)
      ensures activeMode == old(activeMode) && inputBuffer == old(inputBuffer)
      ensures receivedText == old(receivedText)
    {
      var sum := 0.0;
      var i := 0;
      while i < |items|
        invariant 0 <= i <= |items|
        invariant sum == SaleTotal(items[..i])
      {
        assert items[..i + 1][..i] == items[..i];
        sum := sum + LineValue(items[i]);
        i := i + 1;
      }
      assert items[..|items|] == items;
      total := sum;
      finalizeDisabled := |items| == 0;
    }

    /**
     * `showKeypad` as written: it assigns `activeMode` and `inputBuffer`, two
     * implicit globals, so `mode` and `buffer` keep their old values.
     */
    method ShowKeypadAsWritten(input: InputField, newMode: string)
      requires Valid()
      modifies this
      ensures Valid()
      ensures activeInput == Some(input) && activeMode == newMode && inputBuffer == ""
      ensures mode == old(mode) && buffer == old(buffer)
      ensures items == old(items) && total == old(total) && history == old(history) && counts == old(counts)
      ensures receivedText == old(receivedText)
    {
      activeInput := Some(input);
      activeMode := newMode;
      inputBuffer := "";
    }

    /** `showKeypad` as intended: the keypad takes the new mode and an empty buffer. */
    method ShowKeypad(input: InputField, newMode: string)
      requires Valid()
      modifies this
      ensures Valid()
      ensures activeInput == Some(input) && mode == newMode && buffer == ""
      ensures activeMode == old(activeMode) && inputBuffer == old(inputBuffer)
      ensures items == old(items) && total == old(total) && history == old(history) && counts == old(counts)
      ensures receivedText == old(receivedText)
    {
      activeInput := Some(input);
      mode := newMode;
      buffer := "";
    }

    /**
     * The pencil on a product: `showKeypad(countInput, 'integer')`. Through the
     * `showKeypad` as written, only the active input and the two globals change.
     */
    method PencilClick(product: string, price: real)
      requires Valid()
      modifies this
      ensures Valid()
      ensures activeInput == Some(CountInput(product, price)) && activeMode == INTEGER && inputBuffer == ""
      ensures mode == old(mode) && buffer == old(buffer)
      ensures items == old(items) && total == old(total) && history == old(history) && counts == old(counts)
      ensures receivedText == old(receivedText)
    {
      ShowKeypadAsWritten(CountInput(product, price), INTEGER);
    }

    /** A click on the custom amount field: `showKeypad(customEl, 'currency-custom')`, as written. */
    method CustomClick()
      requires Valid()
      modifies this
      ensures Valid()
      ensures activeInput == Some(CustomInput) && activeMode == CURRENCY_CUSTOM && inputBuffer == ""
      ensures mode == old(mode) && buffer == old(buffer)
      ensures items == old(items) && total == old(total) && history == old(history) && counts == old(counts)
      ensures receivedText == old(receivedText)
    {
      ShowKeypadAsWritten(CustomInput, CURRENCY_CUSTOM);
    }

    /** A click on the received field: `showKeypad(receivedEl, 'currency-received')`, as written. */
    method ReceivedClick()
      requires Valid()
      modifies this
      ensures Valid()
      ensures activeInput == Some(ReceivedInput) && activeMode == CURRENCY_RECEIVED && inputBuffer == ""
      ensures mode == old(mode) && buffer == old(buffer)
      ensures items == old(items) && total == old(total) && history == old(history) && counts == old(counts)
      ensures receivedText == old(receivedText)
    {
      ShowKeypadAsWritten(ReceivedInput, CURRENCY_RECEIVED);
    }

    /**
     * A digit key: appended while the buffer holds fewer than nine; in integer
     * mode the count shows the buffer, otherwise the field shows the buffer as
     * cents, formatted.
     */
    method KeyPress(d: char)
      requires Valid() && IsDigit(d)
      modifies this
      ensures Valid()
      ensures activeInput == old(activeInput) && mode == old(mode)
      ensures buffer == if |old(buffer)| < MAX_BUFFER then old(buffer) + [d] else old(buffer)
      ensures |old(buffer)| < MAX_BUFFER && old(EditingCount()) ==>
        counts == old(counts)[activeInput.value.product := DigitsValue(buffer)]
      ensures !(|old(buffer)| < MAX_BUFFER && old(EditingCount())) ==> counts == old(counts)
      ensures |old(buffer)| < MAX_BUFFER && old(EditingReceived()) ==>
        receivedText == FormatBRL(DigitsValue(buffer))
      ensures !(|old(buffer)| < MAX_BUFFER && old(EditingReceived())) ==> receivedText == old(receivedText)
      ensures items == old(items) && total == old(total) && history == old(history)
    {
      if |buffer| < MAX_BUFFER {
        buffer := buffer + [d];
        if EditingCount() {
          counts := counts[activeInput.value.product := DigitsValue(buffer)];
        } else if EditingReceived() {
          receivedText := FormatBRL(DigitsValue(buffer));
        }
      }
    }

    /** The clear key: empty buffer; in integer mode the count shows 0, otherwise the field is emptied. */
    method ClearKey()
      requires Valid()
      modifies this
      ensures Valid() && buffer == ""
      ensures activeInput == old(activeInput) && mode == old(mode)
      ensures old(EditingCount()) ==> counts == old(counts)[activeInput.value.product := 0]
      ensures !old(EditingCount()) ==> counts == old(counts)
      ensures receivedText == if old(EditingReceived()) then "" else old(receivedText)
      ensures items == old(items) && total == old(total) && history == old(history)
    {
      buffer := "";
      if EditingCount() {
        counts := counts[activeInput.value.product := 0];
      } else if EditingReceived() {
        receivedText := "";
      }
    }

    /**
     * The back key: drop the last digit; in integer mode the count shows the
     * rest (0 when empty), otherwise the field shows the rest as cents.
     */
    method BackKey()
      requires Valid()
      modifies this
      ensures Valid()
      ensures activeInput == old(activeInput) && mode == old(mode)
      ensures buffer == if old(buffer) == "" then "" else old(buffer)[..|old(buffer)| - 1]
      ensures old(EditingCount()) ==> counts == old(counts)[activeInput.value.product := DigitsValue(buffer)]
      ensures !old(EditingCount()) ==> counts == old(counts)
      ensures old(EditingReceived()) ==>
        receivedText == FormatBRL(DigitsValue(buffer))
      ensures !old(EditingReceived()) ==> receivedText == old(receivedText)
      ensures items == old(items) && total == old(total) && history == old(history)
    {
      var rest := if buffer == "" then "" else buffer[..|buffer| - 1];
      assert AllDigits(rest);
      var value := DigitsValue(rest);
      buffer := rest;
      if EditingCount() {
        counts := counts[activeInput.value.product := value];
      } else if EditingReceived() {
        receivedText := FormatBRL(value);
      }
    }

    /** Sets the product's standard line to `qty`, appending one when there is none. */
    method SetStandardQuantity(product: string, price: real, qty: nat)
      requires Valid() && qty >= 1
      modifies this
      ensures Valid()
      ensures StandardIndex(old(items), product).Some? ==>
        var k := StandardIndex(old(items), product).value;
        items == old(items)[k := old(items)[k].(qty := qty)]
        && total == old(total) - LineValue(old(items)[k]) + qty as real * old(items)[k].price
      ensures StandardIndex(old(items), product).None? ==>
        items == old(items) + [LegacyItem(product, price, qty, false)] && total == old(total) + qty as real * price
      ensures history == old(history) && counts == old(counts)
      ensures activeInput == old(activeInput) && mode == old(mode) && buffer == old(buffer)
      ensures receivedText == old(receivedText)
    {
      var exist := StandardIndex(items, product);
      if exist.Some? {
        SetLineQuantity(exist.value, qty);
      } else {
        AppendLine(LegacyItem(product, price, qty, false));
      }
    }

    /** `exist.qty = qty` on a standard line. */
    method SetLineQuantity(k: nat, qty: nat)
      requires Valid() && k < |items| && !items[k].custom && qty >= 1
      modifies this
      ensures Valid()
      ensures items == old(items)[k := old(items)[k].(qty := qty)]
      ensures total == old(total) - LineValue(old(items)[k]) + qty as real * old(items)[k].price
      ensures history == old(history) && counts == old(counts)
      ensures activeInput == old(activeInput) && mode == old(mode) && buffer == old(buffer)
      ensures receivedText == old(receivedText)
    {
      var line := items[k].(qty := qty);
      assert LineValue(line) == qty as real * items[k].price;
      SaleTotalUpdate(items, k, line);
      WellFormedSetQty(items, k, qty);
      items := items[k := line];
      UpdateTotal();
    }

    /** `sale.items.push(x)` followed by `updateTotal`. */
    method AppendLine(x: LegacyItem)
      requires Valid()
      requires x.custom ==> x.name == OTHERS_NAME && x.qty == 1
      requires !x.custom ==> x.qty >= 1 && StandardIndex(items, x.name).None?
      modifies this
      ensures Valid()
      ensures items == old(items) + [x] && total == old(total) + LineValue(x)
      ensures history == old(history) && counts == old(counts)
      ensures activeInput == old(activeInput) && mode == old(mode) && buffer == old(buffer)
      ensures receivedText == old(receivedText)
    {
      assert (items + [x])[..|items|] == items;
      WellFormedAppend(items, x);
      items := items + [x];
      UpdateTotal();
    }

    /** A product click: its count goes up by one and its standard line takes the new count. */
    method ProductClick(product: string, price: real)
      requires Valid() && product in counts
      modifies this
      ensures Valid()
      ensures counts == old(counts)[product := old(counts[product]) + 1]
      ensures StandardIndex(old(items), product).Some? ==>
        var k := StandardIndex(old(items), product).value;
        items == old(items)[k := old(items)[k].(qty := old(counts[product]) + 1)]
      ensures StandardIndex(old(items), product).None? ==>
        items == old(items) + [LegacyItem(product, price, old(counts[product]) + 1, false)]
      ensures history == old(history) && activeInput == old(activeInput) && mode == old(mode) && buffer == old(buffer)
      ensures receivedText == old(receivedText)
    {
      var c := counts[product] + 1;
      counts := counts[product := c];
      SetStandardQuantity(product, price, c);
    }

    /** `sale.items.filter(x => x !== exist)`: the line at `k` is dropped. */
    method RemoveLine(k: nat)
      requires Valid() && k < |items|
      modifies this
      ensures Valid()
      ensures items == old(items)[..k] + old(items)[k + 1..] && total == old(total) - LineValue(old(items)[k])
      ensures history == old(history) && counts == old(counts)
      ensures activeInput == old(activeInput) && mode == old(mode) && buffer == old(buffer)
      ensures receivedText == old(receivedText)
    {
      SaleTotalRemove(items, k);
      WellFormedRemove(items, k);
      items := items[..k] + items[k + 1..];
      UpdateTotal();
    }

    /** A custom "Outros" line is always a new line of quantity 1. */
    method AddCustom(amount: real)
      requires Valid()
      modifies this
      ensures Valid()
      ensures items == old(items) + [LegacyItem(OTHERS_NAME, amount, 1, true)] && total == old(total) + amount
      ensures history == old(history) && counts == old(counts)
      ensures activeInput == old(activeInput) && mode == old(mode) && buffer == old(buffer)
      ensures receivedText == old(receivedText)
    {
      AppendLine(LegacyItem(OTHERS_NAME, amount, 1, true));
    }

    /** OK in integer mode: the count becomes `qty`; a positive value sets or appends the line, 0 removes it. */
    method CommitCount(product: string, price: real, qty: nat)
      requires Valid()
      modifies this
      ensures Valid()
      ensures counts == old(counts)[product := qty]
      ensures items == ItemsAfterCount(old(items), product, price, qty)
      ensures total == old(total) - CountedLineValue(old(items), product) + CountedValue(old(items), product, price, qty)
      ensures history == old(history) && activeInput == old(activeInput) && mode == old(mode) && buffer == old(buffer)
      ensures receivedText == old(receivedText)
    {
      ghost var before := items;
      SaleTotalAfterCount(items, product, price, qty);
      counts := counts[product := qty];
      var exist := StandardIndex(items, product);
      if qty > 0 {
        SetStandardQuantity(product, price, qty);
        assert items == ItemsAfterCount(before, product, price, qty);
      } else if exist.Some? {
        RemoveLine(exist.value);
        assert items == ItemsAfterCount(before, product, price, qty);
      }
    }

    /**
     * The OK key: does nothing without an active input; in integer mode on a
     * product count it commits the buffer's value as the count; in custom mode
     * it appends a new "Outros" line of buffer/100; in received mode the
     * received field shows buffer/100; in any mode but the first two the sale
     * is kept.
     */
    method OkKey()
      requires Valid()
      modifies this
      ensures Valid()
      ensures history == old(history) && activeInput == old(activeInput) && mode == old(mode) && buffer == old(buffer)
      ensures activeInput.None? || !(mode == INTEGER || mode == CURRENCY_CUSTOM) ==>
        items == old(items) && total == old(total) && counts == old(counts)
      ensures activeInput.Some? && mode == INTEGER && !activeInput.value.CountInput? ==>
        items == old(items) && total == old(total) && counts == old(counts)
      ensures activeInput.Some? && mode == INTEGER && activeInput.value.CountInput? ==>
        && counts == old(counts)[activeInput.value.product := DigitsValue(buffer)]
        && items == ItemsAfterCount(old(items), activeInput.value.product, activeInput.value.price, DigitsValue(buffer))
        && total == old(total) - CountedLineValue(old(items), activeInput.value.product)
                    + CountedValue(old(items), activeInput.value.product, activeInput.value.price, DigitsValue(buffer))
      ensures activeInput.Some? && mode == CURRENCY_CUSTOM ==>
        items == old(items) + [LegacyItem(OTHERS_NAME, DigitsValue(buffer) as real / 100.0, 1, true)]
        && total == old(total) + DigitsValue(buffer) as real / 100.0
      ensures activeInput.Some? && mode == CURRENCY_RECEIVED ==>
        receivedText == FormatBRL(DigitsValue(buffer))
      ensures !(activeInput.Some? && mode == CURRENCY_RECEIVED) ==> receivedText == old(receivedText)
    {
      if activeInput.None? {
        return;
      }
      var input, value := activeInput.value, DigitsValue(buffer);
      if mode == INTEGER && input.CountInput? {
        CommitCount(input.product, input.price, value);
      } else if mode == CURRENCY_CUSTOM {
        AddCustom(value as real / 100.0);
      } else if mode == CURRENCY_RECEIVED {
        receivedText := FormatBRL(value);
      }
    }

    /**
     * The finalize button's handler once the field has been read as
     * `received`: refused while the button is disabled (an empty sale),
     * when the field is empty or when `received` is below the total;
     * otherwise the sale goes to the front of the history and a new sale
     * starts.
     */
    method Settle(received: real, timestamp: string) returns (ok: bool)
      requires Valid()
      modifies this
      ensures Valid()
      ensures ok <==> !old(finalizeDisabled) && old(receivedText) != "" && received >= old(total)
      ensures !ok ==> items == old(items) && total == old(total) && history == old(history) && counts == old(counts)
      ensures !ok ==> receivedText == old(receivedText)
      ensures ok ==>
        history == [HistoryEntry(timestamp, old(items), old(total), received, received - old(total))] + old(history)
        && items == [] && total == 0.0 && finalizeDisabled && receivedText == ""
        && counts.Keys == old(counts).Keys && forall p :: p in counts ==> counts[p] == 0
      ensures activeInput == old(activeInput) && mode == old(mode) && buffer == old(buffer)
    {
      if finalizeDisabled {
        return false;
      }
      if receivedText == "" {
        return false;
      }
      if received < total {
        return false;
      }
      history := [HistoryEntry(timestamp, items, total, received, received - total)] + history;
      ResetSale();
      ok := true;
    }

    /** The finalize button, reading the received field with the corrected currency parse. */
    method Finalize(timestamp: string) returns (ok: bool)
      requires Valid()
      modifies this
      ensures Valid()
      ensures ok <==> !old(finalizeDisabled) && old(receivedText) != "" && ParseReceived(old(receivedText)) >= old(total)
      ensures !ok ==> items == old(items) && total == old(total) && history == old(history) && counts == old(counts)
      ensures !ok ==> receivedText == old(receivedText)
      ensures ok ==>
        var received := ParseReceived(old(receivedText));
        history == [HistoryEntry(timestamp, old(items), old(total), received, received - old(total))] + old(history)
        && items == [] && total == 0.0 && finalizeDisabled && receivedText == ""
        && counts.Keys == old(counts).Keys && forall p :: p in counts ==> counts[p] == 0
      ensures activeInput == old(activeInput) && mode == old(mode) && buffer == old(buffer)
    {
      ok := Settle(ParseReceived(receivedText), timestamp);
    }

    /**
     * The finalize button as written: the received field is filtered and
     * read with `parseFloat`, which stops at the decimal comma.
     */
    method FinalizeAsWritten(timestamp: string) returns (ok: bool)
      requires Valid()
      modifies this
      ensures Valid()
      ensures ok <==> !old(finalizeDisabled) && old(receivedText) != "" && ReceivedAsWritten(old(receivedText)) >= old(total)
      ensures !ok ==> items == old(items) && total == old(total) && history == old(history) && counts == old(counts)
      ensures !ok ==> receivedText == old(receivedText)
      ensures ok ==>
        var received := ReceivedAsWritten(old(receivedText));
        history == [HistoryEntry(timestamp, old(items), old(total), received, received - old(total))] + old(history)
        && items == [] && total == 0.0 && finalizeDisabled && receivedText == ""
        && counts.Keys == old(counts).Keys && forall p :: p in counts ==> counts[p] == 0
      ensures activeInput == old(activeInput) && mode == old(mode) && buffer == old(buffer)
    {
      ok := Settle(ReceivedAsWritten(receivedText), timestamp);
    }
  }

  /** The lines other than the product's standard lines: custom lines and other products, in order. */
  function OtherLines(items: seq<LegacyItem>, name: string): (r: seq<LegacyItem>)
    ensures |r| <= |items|
  {
    if items == [] then []
    else (if !items[0].custom && items[0].name == name then [] else [items[0]]) + OtherLines(items[1..], name)
  }

  /** The filtered lines are exactly the custom lines and the other products' lines. */
  lemma {:induction false} OtherLinesMembers(items: seq<LegacyItem>, name: string)
    ensures forall x :: x in OtherLines(items, name) <==> x in items && (x.custom || x.name != name)
  {
    if items != [] {
      OtherLinesMembers(items[1..], name);
      assert items == [items[0]] + items[1..];
    }
  }

  /** Filtering distributes over concatenation. */
  lemma {:induction false} OtherLinesAppend(a: seq<LegacyItem>, b: seq<LegacyItem>, name: string)
    ensures OtherLines(a + b, name) == OtherLines(a, name) + OtherLines(b, name)
  {
    if a == [] {
      assert a + b == b;
    } else {
      var h := if !a[0].custom && a[0].name == name then [] else [a[0]];
      assert (a + b)[0] == a[0] && (a + b)[1..] == a[1..] + b;
      assert OtherLines(a + b, name) == h + OtherLines(a[1..] + b, name);
      OtherLinesAppend(a[1..], b, name);
    }
  }

  /** Dropping the product's standard line at `k` leaves the other lines as they were. */
  lemma OtherLinesAround(items: seq<LegacyItem>, k: nat, name: string)
    requires k < |items| && !items[k].custom && items[k].name == name
    ensures OtherLines(items, name) == OtherLines(items[..k], name) + OtherLines(items[k + 1..], name)
  {
    var x := items[k];
    assert items == items[..k] + ([x] + items[k + 1..]);
    OtherLinesAppend(items[..k], [x] + items[k + 1..], name);
    OtherLinesAppend([x], items[k + 1..], name);
    assert OtherLines([x], name) == [] by {
      assert [x][1..] == [];
    }
  }

  /** The price the product's line carries after a positive count: the existing line's, or the product's own for a new line. */
  function CountedPrice(items: seq<LegacyItem>, product: string, price: real): real {
    match StandardIndex(items, product)
    case Some(k) => items[k].price
    case None => price
  }

  /** What the product's standard line adds to the total, 0 when there is none. */
  function CountedLineValue(items: seq<LegacyItem>, product: string): real {
    match StandardIndex(items, product)
    case Some(k) => LineValue(items[k])
    case None => 0.0
  }

  /**
   * The lines after a product's count is committed as `qty`: a positive count
   * sets its standard line in place or appends one, 0 removes it.
   */
  function ItemsAfterCount(items: seq<LegacyItem>, product: string, price: real, qty: nat): (r: seq<LegacyItem>)
    requires WellFormedItems(items)
    ensures WellFormedItems(r)
  {
    match StandardIndex(items, product)
    case Some(k) =>
      if qty > 0 then
        WellFormedSetQty(items, k, qty);
        items[k := items[k].(qty := qty)]
      else
        WellFormedRemove(items, k);
        items[..k] + items[k + 1..]
    case None =>
      if qty > 0 then
        WellFormedAppend(items, LegacyItem(product, price, qty, false));
        items + [LegacyItem(product, price, qty, false)]
      else items
  }

  /** Committing a count keeps every custom line and every other product's line, in order and with duplicates. */
  lemma ItemsAfterCountKeepsOthers(items: seq<LegacyItem>, product: string, price: real, qty: nat)
    requires WellFormedItems(items)
    ensures OtherLines(ItemsAfterCount(items, product, price, qty), product) == OtherLines(items, product)
    ensures forall x :: x in items && (x.custom || x.name != product) ==> x in ItemsAfterCount(items, product, price, qty)
    ensures forall x :: x in ItemsAfterCount(items, product, price, qty) && (x.custom || x.name != product) ==> x in items
  {
    var r := ItemsAfterCount(items, product, price, qty);
    OtherLinesMembers(items, product);
    OtherLinesMembers(r, product);
    match StandardIndex(items, product)
    case Some(k) =>
      OtherLinesAround(items, k, product);
      if qty > 0 {
        assert r == items[k := items[k].(qty := qty)];
        OtherLinesAround(r, k, product);
        assert r[..k] == items[..k] && r[k + 1..] == items[k + 1..];
      } else {
        assert r == items[..k] + items[k + 1..];
        OtherLinesAppend(items[..k], items[k + 1..], product);
      }
    case None =>
      if qty > 0 {
        var x := LegacyItem(product, price, qty, false);
        assert r == items + [x];
        OtherLinesAppend(items, [x], product);
        assert [x][1..] == [];
      }
  }

  /**
   * After committing a count, 0 leaves the product no standard line; a positive
   * count is the quantity of its single standard line, kept in place with its
   * price or appended at the end with the product's price.
   */
  lemma ItemsAfterCountLine(items: seq<LegacyItem>, product: string, price: real, qty: nat)
    requires WellFormedItems(items)
    ensures qty == 0 ==> StandardIndex(ItemsAfterCount(items, product, price, qty), product).None?
    ensures qty > 0 ==>
      var r := ItemsAfterCount(items, product, price, qty);
      && StandardIndex(r, product) == (if StandardIndex(items, product).Some? then StandardIndex(items, product) else Some(|items|))
      && r[StandardIndex(r, product).value] == CountedLine(items, product, price, qty)
  {
    var r := ItemsAfterCount(items, product, price, qty);
    match StandardIndex(items, product)
    case Some(k) =>
      if qty > 0 {
        assert r == items[k := items[k].(qty := qty)];
        StandardIndexSame(r, product, k);
      } else {
        assert r == items[..k] + items[k + 1..];
        StandardIndexRemoved(items, product, k);
      }
    case None =>
      if qty > 0 {
        var x := LegacyItem(product, price, qty, false);
        assert r == items + [x];
        StandardIndexSame(r, product, |items|);
      }
  }

  /** With at most one standard line per name, removing the product's line leaves it none. */
  lemma StandardIndexRemoved(items: seq<LegacyItem>, product: string, k: nat)
    requires WellFormedItems(items) && StandardIndex(items, product) == Some(k)
    ensures StandardIndex(items[..k] + items[k + 1..], product).None?
  {
    var r := items[..k] + items[k + 1..];
    forall j | 0 <= j < |r| ensures r[j].name != product || r[j].custom {
      if j < k {
        assert r[j] == items[j];
      } else {
        assert r[j] == items[j + 1];
      }
    }
  }

  /** The product's line after a positive count: its quantity is the count, its price the line's own or the product's. */
  function CountedLine(items: seq<LegacyItem>, product: string, price: real, qty: nat): LegacyItem {
    LegacyItem(product, CountedPrice(items, product, price), qty, false)
  }

  /** The value a commit adds back: the new line's value for a positive count, nothing for 0. */
  function CountedValue(items: seq<LegacyItem>, product: string, price: real, qty: nat): real {
    if qty > 0 then LineValue(CountedLine(items, product, price, qty)) else 0.0
  }

  /** Committing a count replaces the value of the product's old line (if any) by that of its new one (if any). */
  lemma SaleTotalAfterCount(items: seq<LegacyItem>, product: string, price: real, qty: nat)
    requires WellFormedItems(items)
    ensures SaleTotal(ItemsAfterCount(items, product, price, qty)) ==
      SaleTotal(items) - CountedLineValue(items, product) + CountedValue(items, product, price, qty)
  {
    var r := ItemsAfterCount(items, product, price, qty);
    match StandardIndex(items, product)
    case Some(k) =>
      if qty > 0 {
        assert r == items[k := CountedLine(items, product, price, qty)];
        SaleTotalUpdate(items, k, CountedLine(items, product, price, qty));
      } else {
        assert r == items[..k] + items[k + 1..];
        SaleTotalRemove(items, k);
      }
    case None =>
      if qty > 0 {
        assert r == items + [CountedLine(items, product, price, qty)];
        SaleTotalAppend(items, CountedLine(items, product, price, qty));
      }
  }

  /** Appending a line adds its value to the total. */
  lemma SaleTotalAppend(items: seq<LegacyItem>, x: LegacyItem)
    ensures SaleTotal(items + [x]) == SaleTotal(items) + LineValue(x)
  {
    var r := items + [x];
    assert r[..|r| - 1] == items;
  }

  /** The first standard line with the name is the one found. */
  lemma {:induction false} StandardIndexSame(items: seq<LegacyItem>, product: string, k: nat)
    requires k < |items| && items[k].name == product && !items[k].custom
    requires forall j :: 0 <= j < k ==> items[j].name != product || items[j].custom
    ensures StandardIndex(items, product) == Some(k)
  {
    if k > 0 {
      StandardIndexSame(items[1..], product, k - 1);
    }
  }

  const PAO_DE_SAL: string := "Pão de Sal"

  /**
   * As written, editing a product's count with the pencil (pencil, key 3, OK
   * on a fresh page) leaves the sale empty: the mode is never set.
   */
  method PencilEditAsWritten() returns (items: seq<LegacyItem>, total: real)
    ensures items == [] && total == 0.0
  {
    var r := new Register({PAO_DE_SAL}, []);
    r.PencilClick(PAO_DE_SAL, 0.70);
    r.KeyPress('3');
    r.OkKey();
    items, total := r.items, r.total;
  }

  /** With the corrected `showKeypad` opening the count, the same clicks put three of the product in the sale. */
  method PencilEdit() returns (items: seq<LegacyItem>, total: real)
    ensures items == [LegacyItem(PAO_DE_SAL, 0.70, 3, false)] && total == 2.10
  {
    var r := new Register({PAO_DE_SAL}, []);
    r.ShowKeypad(CountInput(PAO_DE_SAL, 0.70), INTEGER);
    r.KeyPress('3');
    assert r.buffer == "3";
    assert DigitsValue("3") == 3 by { assert "3"[..0] == ""; }
    r.OkKey();
    var line := LegacyItem(PAO_DE_SAL, 0.70, 3, false);
    assert StandardIndex([], PAO_DE_SAL).None?;
    assert r.items == [] + [line];
    assert SaleTotal([line]) == 2.10 by { assert [line][..0] == []; }
    items, total := r.items, r.total;
  }
}
