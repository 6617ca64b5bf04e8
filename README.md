# Bakery register core, modelled in Dafny

This project models the logic of a bakery point-of-sale web app. It is a model of the JavaScript source, not a rewrite of it.

- **Shift ledger.** One state record holds the sale in progress, the active turn (morning or afternoon shift) and one ledger per turn. Each ledger has five running totals and an append-only history. The cash balance is derived from the totals. Modules `State` and `Payment`.
- **Transaction processors.** A sale, a supplier payment and a cash withdrawal each validate, then either change nothing or book exactly one event into the current ledger. Module `Payment`.
- **On-screen keypad.** A text buffer of digits with at most one comma and at most six digits. Confirming it dispatches on the context the keypad was opened for. Module `Keyboard`.
- **Offline outbox.** Records wait under increasing ids. A single-flight sync pass sends them in order, deletes each one delivered and stops at the first failure. Module `Persistence`, which also holds:
  - the defaults applied when a stored state is loaded;
  - two mappers for the remote backend: payment type and turn type ("tipo").
- **Standalone register page.** Standard products are merged by name and custom "Outros" amounts are never merged. A keypad is meant to edit counts, the custom amount and the received amount; as written, `showKeypad` never sets the keypad's own mode (see Findings). The received field holds pt-BR currency text, which the finalize button parses. The sale history is kept newest first. Modules `LegacyRegister` and `LegacyMoney`.
- **Administrator credential store.** Password and e-mail rules, a 30-minute session and a 15-minute recovery code. Module `Auth`.
- **Service workers.** The two workers (`sw.js`, `optimized-sw.js`) route requests, choose which old caches to delete and trim the dynamic cache to a size. Modules `CachePolicy`, `ServiceWorker` and `OptimizedServiceWorker`.

How the source is represented:

- Mutable module state is a class: `AppState`, `VirtualKeyboard`, `SyncService`, `Register`, `CredentialStore`.
- Its operations are methods with `modifies` clauses.
- Each method's new state is stated against a value-level specification function. Examples: `Snapshot` with `Booked`, `Repriced`, `ItemsAfterCount`, `SaleTotal`, `Without`.
- Money is `real`.
- The clock and the network are parameters:
  - time stamps are `int` milliseconds or locale strings passed in;
  - delivery to the backend is a `deliver` oracle;
  - "online" and "database open" are booleans.

## Model

| member | source | states |
|---|---|---|
| State.InitialTurnData | js/state.js:7-14 | a fresh ledger has all five totals 0, an empty history and balance 0 |
| State.FreshTurnsData | js/state.js:26-29 | the ledgers map has exactly the keys morning and afternoon, each a fresh ledger |
| State.RecordSale | js/modules/payment.js:100-107 | the sale is appended to the history; its total goes to cash (balance rises by it) for "Cash", else to card; the payment and withdrawal totals are unchanged |
| State.RecordPayment | js/modules/payment.js:203-207 | the payment is appended; the cash portion is added only when positive, so the balance falls by exactly that and never rises; the external portion is added only when positive; sales and withdrawal totals are unchanged |
| State.RecordWithdrawal | js/modules/payment.js:294-297 | the withdrawal is appended and the balance falls by its value; the other totals are unchanged |
| State.BalanceIgnoresCardAndExternal | js/state.js:76-82 | card sales and external supplier payments never affect the cash balance |
| State.Record | js/modules/payment.js:100-107 | booking any event appends it and moves the balance by that event's cash effect |
| State.ReplayBalance | js/state.js:76-82 | after booking a sequence of events, the history is exactly the old history plus those events in order, and the balance is the old one plus the summed cash effects: the totals never drift from the history |
| State.CurrentTurnDataOf | js/state.js:65-70 | there is a current ledger iff there is a turn whose type is a key of the ledgers map, and then it is that ledger |
| State.CashBalanceOf | js/state.js:76-82 | 0 without a turn or without its ledger; otherwise cash sales minus cash payments minus withdrawals |
| State.Booked | js/modules/payment.js:97-107 | booking into the state: with no ledger nothing changes; otherwise only the current ledger (now Record of it) and the lastCreated key of the event's kind change, and the balance moves by the event's cash effect |
| State.AppState.constructor | js/state.js:20-30 | the initial record: empty cart, totals 0, no turn, fresh ledgers |
| State.AppState.GetState | js/state.js:36-38 | a copy by value of every field, so changing it cannot reach the store |
| State.AppState.SetState | js/state.js:44-46 | each key given is overwritten and every other field keeps its value |
| State.AppState.ResetCart | js/state.js:52-59 | cart, total, payment method and received amount are cleared; the turn, the ledgers and everything else are kept |
| State.AppState.CurrentTurnData | js/state.js:65-70 | null exactly when there is no turn or its type has no ledger, else that ledger |
| State.AppState.CashBalance | js/state.js:76-82 | 0 without a current ledger, else totalCash − totalPaymentsCash − totalWithdrawals |
| State.AppState.InitializeState | js/state.js:88-98 | empty cart, totals 0, no payment method, no turn, fresh ledgers, balance 0; the other keys are kept |
| Payment.Book | js/modules/payment.js:200-207 | the new state is Booked(old state, event) |
| Payment.SelectPayment | js/modules/payment.js:21-52 | the method is stored and the received amount zeroed, nothing else changes; for cash the keypad opens on "0" in the received context, otherwise it is untouched |
| Payment.ClearCart | js/modules/payment.js:124-125 | the sale in progress is reset; turn and ledgers are kept |
| Payment.ProcessNext | js/modules/payment.js:59-119 | rejected, with the state unchanged, iff no active turn, empty cart, no method, or cash with received < total (in that order of reasons); an accepted sale copies the cart, has received − change = total, change ≥ 0 for cash and 0 otherwise; the state is the event booked and then the cart cleared with the turn kept; the balance rises by the total only for cash |
| Payment.SelectPaymentType | js/modules/payment.js:225-226 | the type is stored and both split portions zeroed; nothing else changes |
| Payment.SubmitPayment | js/modules/payment.js:145-219 | rejected, unchanged, iff no turn, no value or no type, cash above the balance, or a split that does not add up within 0.01 or whose cash part is above the balance; the accepted event carries the portions by type and the supplier or "Não informado"; its cash portion never exceeds the balance, the balance never rises and stays non-negative if it was |
| Payment.SubmitWithdrawal | js/modules/payment.js:262-309 | rejected, unchanged, iff no turn, no value, value ≤ 0 or value > balance; accepted: the event is booked and 0 ≤ new balance = old − value < old |
| Text.FirstComma | js/modules/keyboard.js:184-189 | the index of the first comma, or the length when there is none |
| Keyboard.WellFormedShape | js/modules/keyboard.js:171-201 | a buffer of the keypad's shape is never empty, starts with a digit, has at most one comma and no '.' |
| Keyboard.StripLengthIsDigitCount | js/modules/keyboard.js:175 | the length the six-digit cap measures (the buffer without its first separator) is the number of digits held |
| Keyboard.ParseInt | js/modules/keyboard.js:90 | the integer part of a buffer is below 1 000 000 |
| Keyboard.ParseFloat | js/modules/keyboard.js:88-89 | the parsed value lies in [integer part, integer part + 1) |
| Keyboard.PositiveIffNonZeroDigit | js/modules/keyboard.js:107-127 | the confirmed value is positive iff the buffer holds a non-zero digit |
| Keyboard.Repriced | js/modules/keyboard.js:111-118 | only the chosen cart item changes: its price is the value and its total is price × quantity |
| Keyboard.ApplyOtherPrice | js/modules/keyboard.js:111-119 | the new state is Repriced(old state, index, value) |
| Keyboard.VirtualKeyboard.constructor | js/modules/keyboard.js:9-10 | the buffer starts at "0" with an empty context |
| Keyboard.VirtualKeyboard.OpenKeyboard | js/modules/keyboard.js:25-27 | the context is set and the buffer reset to "0" |
| Keyboard.VirtualKeyboard.CloseKeyboard | js/modules/keyboard.js:77-82 | buffer "0" and an empty context |
| Keyboard.VirtualKeyboard.InputDigit | js/modules/keyboard.js:171-179 | "0" is replaced by the digit; otherwise the digit is appended only while fewer than six digits are held; the buffer keeps its shape and never holds more than six digits |
| Keyboard.VirtualKeyboard.InputComma | js/modules/keyboard.js:184-189 | a comma is appended only when there is none; the digit count is unchanged |
| Keyboard.VirtualKeyboard.Backspace | js/modules/keyboard.js:194-201 | the last character is dropped, a one-character buffer becomes "0"; the shape is kept |
| Keyboard.VirtualKeyboard.ConfirmKeyboard | js/modules/keyboard.js:87-162 | rejected iff quantity > 999 or a non-positive price/"Outros" amount, and then buffer, context and state are kept; otherwise the value goes to editItemQuantity, addProduct, the repriced item, receivedAmount, mixedCashAmount, mixedExternalAmount or a form field by context, and the keypad is reset |
| Keyboard.OpenReceivedKeyboard | js/modules/keyboard.js:223-234 | the keypad opens in the received context iff the payment method is "Cash"; otherwise it is untouched |
| Persistence.Without | js/services/persistence.js:65-73 | deleting an id keeps exactly the entries with other ids |
| Persistence.DeleteHead | js/services/persistence.js:156-167 | deleting the id at the head of an ordered queue removes exactly the head |
| Persistence.WithoutIncreasing | js/services/persistence.js:65-73 | deleting an entry from a queue in key order leaves the survivors in key order |
| Persistence.SyncService.constructor | js/services/persistence.js:18 | an empty outbox whose key generator starts at 1 |
| Persistence.SyncService.DeleteOutbox | js/services/persistence.js:65-73 | the outbox becomes Without(outbox, id) and stays in increasing id order |
| Persistence.SyncService.DeleteDelivered | js/services/persistence.js:167 | deleting the id of the entry at the head of the ordered outbox removes exactly that entry and keeps the order |
| Persistence.SyncService.TrySync | js/services/persistence.js:143-178 | nothing happens when offline, without a database, with a pass running or when reading the outbox fails; otherwise the delivered entries followed by the remaining outbox are the old outbox, every delivered entry was both sent and deleted, the first remaining one failed its send or its delete, and `stranded` holds exactly when it was sent but not deleted (so the next pass sends it again); the running flag is as before |
| Persistence.SyncService.EnqueueSync | js/services/persistence.js:126-137 | nothing happens without a database; otherwise the entry is stamped unsynced under the next id, which then increases by one, and what was delivered followed by the outbox is the old outbox plus that entry; every delivered entry was sent and deleted, and a stranded entry heads the outbox |
| Persistence.RemotePaymentType | js/services/persistence.js:300-310 | "pix" iff external/pix, "cartao" iff card/cartao, "dinheiro" for everything else including a missing type |
| Persistence.DerivedTipo | js/services/persistence.js:203 | a given tipo is kept; otherwise "manha" iff the type is morning and "tarde" iff it is not |
| Persistence.OpeningAmount | js/services/persistence.js:206 | the first non-zero of valorInicial and initialValue, and 0 iff both are 0 |
| Persistence.TurnSyncAsWritten | js/services/persistence.js:185-216 | skipped iff no turn or neither tipo nor type; the open turn is reused only when its tipo equals the turn's own tipo field; otherwise a turn of the derived tipo is created |
| Persistence.TurnSyncAsWrittenDuplicates | js/services/persistence.js:197-203 | a morning turn with no tipo field creates a second "manha" turn while one is open |
| Persistence.TurnSync | js/services/persistence.js:185-216 | as above, but the open turn is reused iff its tipo equals the derived tipo |
| Persistence.TurnSyncNoDuplicate | js/services/persistence.js:197-203 | the corrected sync never creates a turn of the tipo already open |
| Persistence.TurnSyncAgreesWhenTipoGiven | js/services/persistence.js:197-203 | the corrected and the written sync agree whenever the turn carries its tipo |
| Persistence.LoadDefault | js/services/persistence.js:106-111 | cart [], total and received 0, payment method "", turnsData {}, currentTurn null |
| Persistence.LoadAppState | js/services/persistence.js:100-120 | null iff no database or a falsy stored state; otherwise exactly the six keys present in the stored object, each with its stored value when truthy and its default when falsy |
| Persistence.LoadIdempotent | js/services/persistence.js:106-111 | loading a loaded state gives it back unchanged |
| LegacyRegister.SaleTotalUpdate | script.js:80-81 | replacing a line moves the total by the difference of the two line values |
| LegacyRegister.SaleTotalRemove | script.js:80-81 | removing a line takes its value off the total |
| LegacyRegister.StandardIndex | script.js:119 | the first non-custom line with the name, or none when there is no such line |
| LegacyRegister.ItemsAfterCount | script.js:114-122 | committing a count keeps the lines well formed: at most one standard line per name, custom lines "Outros" × 1, positive standard quantities |
| LegacyRegister.OtherLinesMembers | script.js:119-121 | the lines a count commit must leave alone are exactly the custom lines and the lines of other products |
| LegacyRegister.ItemsAfterCountKeepsOthers | script.js:118-121 | committing a count keeps every custom line and every other product's line unchanged, in order and with duplicates, and brings in no other line of another name |
| LegacyRegister.ItemsAfterCountLine | script.js:118-121 | count 0 leaves no standard line for the product; a positive count leaves it where the old one was (or appended last), with the old line's price (or the product's price when new) and that quantity |
| LegacyRegister.SaleTotalAfterCount | script.js:118-122 | the total after a commit is the old total minus the old line's value plus the new line's value (0 for either when absent) |
| LegacyRegister.Register.constructor | script.js:52 | an empty sale, the stored history, zero counts, no active input, mode, buffer and received field empty |
| LegacyRegister.Register.ResetSale | script.js:56-65 | no items, total 0, every count 0, an empty received field, finalize disabled; history and keypad kept |
| LegacyRegister.Register.UpdateTotal | script.js:80-85 | the total is Σ (custom ? price : qty × price) over the items, and finalize is disabled iff there are none |
| LegacyRegister.Register.ShowKeypadAsWritten | script.js:87-93 | as written: the active input is set and the globals `activeMode` and `inputBuffer` take the new mode and "", while the keypad's mode and buffer keep their old values |
| LegacyRegister.Register.ShowKeypad | script.js:87-93 | the corrected half of the showKeypad finding: the active input, the keypad's mode and an empty buffer are set; sale, history and counts are kept |
| LegacyRegister.Register.PencilClick | script.js:137-143 | through showKeypad as written: the count input becomes active and `activeMode` is "integer", but the keypad's mode and buffer are unchanged; sale and counts are kept |
| LegacyRegister.Register.CustomClick | script.js:151 | through showKeypad as written: the custom field becomes active and `activeMode` is "currency-custom"; mode, buffer, sale and counts are unchanged |
| LegacyRegister.Register.ReceivedClick | script.js:152 | through showKeypad as written: the received field becomes active and `activeMode` is "currency-received"; mode, buffer, sale and counts are unchanged |
| LegacyRegister.Register.KeyPress | script.js:101-106 | a digit is appended only while the buffer is shorter than 9; in integer mode the count shows the buffer, otherwise the received field, when active, shows the buffer as cents formatted as BRL |
| LegacyRegister.Register.ClearKey | script.js:107 | the buffer is emptied; in integer mode the count shows 0, otherwise the active received field is emptied |
| LegacyRegister.Register.BackKey | script.js:108-111 | the last digit is dropped; in integer mode the count shows the rest, or 0, otherwise the active received field shows the rest as cents formatted as BRL |
| LegacyRegister.Register.SetStandardQuantity | script.js:120 | the product's standard line takes the quantity, or a new line is appended; the total follows |
| LegacyRegister.Register.SetLineQuantity | script.js:120 | one line's quantity is replaced and the total moves by the difference |
| LegacyRegister.Register.AppendLine | script.js:120 | one line is appended and its value added to the total |
| LegacyRegister.Register.RemoveLine | script.js:121 | one line is removed and its value taken off the total |
| LegacyRegister.Register.ProductClick | script.js:144-148 | the count goes up by one and the product's standard line takes the new count, or is appended; at most one standard line per name is kept |
| LegacyRegister.Register.AddCustom | script.js:123-126 | a new "Outros" line of quantity 1 is always appended, never merged, and the total rises by its amount |
| LegacyRegister.Register.CommitCount | script.js:114-122 | the count is set, the items become ItemsAfterCount and the total moves by the new line's value minus the old line's |
| LegacyRegister.Register.OkKey | script.js:112-133 | nothing without an active input; integer mode on a count commits the buffer's value (count, items and total as CommitCount), on any other input keeps the sale; custom mode appends buffer/100 as "Outros"; received mode writes buffer/100 formatted as BRL into the received field; any other mode keeps the sale |
| LegacyRegister.Register.Settle | script.js:154-164 | given the amount read: refused, with sale, history and field unchanged, iff the button is disabled (empty sale, as `resetSale` and `updateTotal` set it at script.js:64 and :84), the field is empty or the amount is below the total; otherwise exactly one entry with that amount and its change is put at the front of the history and the sale and field are reset |
| LegacyRegister.Register.Finalize | script.js:154-164 | corrected half: the received field is read with `ParseReceived`, which takes the comma as the decimal point; refused, with sale, history and field unchanged, iff the button is disabled (empty sale), the field is empty or the amount read is below the total; otherwise exactly one entry with that amount and its change is put at the front of the history and the sale and field are reset |
| LegacyRegister.Register.FinalizeAsWritten | script.js:154-164 | as written: the same, with the field read by `ReceivedAsWritten` (the character filter and `parseFloat`, which stops at the comma) |
| LegacyRegister.PencilEditAsWritten | script.js:87-93 | the pencil click (through showKeypad as written), key 3 and OK leave the sale empty |
| LegacyRegister.PencilEdit | script.js:112-122 | with the corrected showKeypad opening the count in integer mode, key 3 and OK put 3 × "Pão de Sal" (2.10) in the sale |
| LegacyMoney.NatText | script.js:54 | the decimal digits of a number, at least one, read back as that number |
| LegacyMoney.FixedDigits | script.js:54 | a number below 10^w written with exactly w digits, read back as that number |
| LegacyMoney.FormatBRL | script.js:54 | `fmt.format` of cents/100: the first comma splits "R$", a no-break space and the grouped reais from exactly two digits of cents |
| LegacyMoney.GroupedValue | script.js:54 | dropping the thousands separators of the grouped reais gives the number of reais back |
| LegacyMoney.Fraction | script.js:156 | digits read after a decimal point lie in [0, 1) |
| LegacyMoney.ReceivedRoundTrip | script.js:129 | the corrected parse of the received field reads every amount the formatter writes back as exactly cents/100 |
| LegacyMoney.ParseFloatStopsAtComma | script.js:156 | `parseFloat` of digits followed by a comma reads the digits alone |
| LegacyMoney.SanitizedFormat | script.js:156 | below R$ 1.000,00 the character filter leaves the reais, the comma and the two cents digits |
| LegacyMoney.ReceivedAsWrittenDropsCents | script.js:156 | as written, below R$ 1.000,00 the finalize button reads a formatted amount as its whole reais, so an amount with cents reads as less than the corrected parse gives |
| Text.Trim | js/services/auth.js:41-42 | the trimmed text is no longer, neither starts nor ends with white space, and keeps every non-space character |
| Text.TrimInfix | js/services/auth.js:41-42 | the trimmed text is an infix of the input with only white space cut before and after it |
| Text.TrimIdempotent | js/services/auth.js:41-42 | trimming twice is trimming once |
| Auth.KeyNamesDistinct | js/config.js:36-39 | different storage keys name different storage entries, so the store can be keyed by the four keys |
| Auth.CredentialStore.StoredText | js/services/auth.js:18-20 | the stored text under a key, "" when absent |
| Auth.CredentialStore.HasConfiguration | js/services/auth.js:25-28 | both the password and the e-mail key are present, whatever they hold; SetConfiguration establishes it and ResetConfiguration removes it |
| Auth.CredentialStore.GetPassword | js/services/auth.js:10-13 | the custom password when stored and non-empty, else "admin123"; never empty |
| Auth.CredentialStore.PasswordAccepted | js/services/auth.js:60-66 | accepted iff the master code, or the custom password when one is stored, or the default when none is |
| Auth.CredentialStore.CurrentPasswordValidates | js/services/auth.js:60-66 | whatever the store holds, the password it currently answers with validates |
| Auth.CredentialStore.ConfiguredValidates | js/services/auth.js:33-44 | once an e-mail containing '@' and a trimmed password of at least 4 characters are stored as the configuration stores them, the same e-mail and the trimmed password both validate |
| Auth.CredentialStore.EmailIgnoresPadding | js/services/auth.js:71-75 | surrounding white space never changes the e-mail check, and no e-mail passes when none is stored |
| Auth.CredentialStore.ActiveSessionInMilliseconds | js/services/auth.js:80-93 | a session is active iff one is stored and it is less than 30 × 60 000 ms old |
| Auth.CredentialStore.SetConfiguration | js/services/auth.js:33-44 | an e-mail without '@' or a trimmed password shorter than 4 is refused and nothing is stored; otherwise exactly the trimmed lower-cased e-mail and the trimmed password are stored, after which the configuration exists and both validate |
| Auth.CredentialStore.UpdatePassword | js/services/auth.js:49-55 | refused, storing nothing, iff the trimmed password is shorter than 4; otherwise only the password key changes, the e-mail is kept and the new password validates |
| Auth.CredentialStore.StartSession | js/services/auth.js:98-103 | a session stamped now is stored and is active now |
| Auth.CredentialStore.EndSession | js/services/auth.js:108-110 | the session key is removed and no session is active at any time |
| Auth.CredentialStore.SaveRecoveryCode | js/services/auth.js:122-128 | the code is stored with the current time |
| Auth.CredentialStore.ClearRecoveryCode | js/services/auth.js:157-159 | the recovery code key is removed |
| Auth.CredentialStore.ValidateRecoveryCode | js/services/auth.js:133-152 | false without a code; a code more than 15 × 60 000 ms old is removed and fails (exactly 15 minutes is still checked); otherwise true iff the input equals it, with the store unchanged |
| Auth.CredentialStore.ResetConfiguration | js/services/auth.js:164-170 | the four keys are removed and the default password returned, which then validates; no configuration remains |
| CachePolicy.Route | sw.js:71-91 | non-http URLs are bypassed; fonts are cache-first in the static cache; images cache-first, pages stale-while-revalidate, other same-origin network-first and cross-origin cache-first, all in the dynamic cache; first match wins |
| CachePolicy.RouteCacheFirst | sw.js:80-90 | only fonts reach the static cache, and a cache-first answer is a font, an image or a cross-origin non-page request |
| CachePolicy.FilterNames | sw.js:51-57 | the kept names are exactly those satisfying the predicate |
| CachePolicy.TrimmedKeys | sw.js:374-376 | with more than max keys, the first len − max in key order, leaving exactly max; otherwise none |
| ServiceWorker.FetchRoute | sw.js:77-90 | non-http requests are bypassed; only fonts use static-v3.0 and everything else dynamic-v3.0 |
| ServiceWorker.CachesToDelete | sw.js:51-57 | the current static and dynamic caches are never deleted; a name is deleted iff it is neither of them and starts with super-caixa-, static- or dynamic- |
| ServiceWorker.CleanupOldCaches | sw.js:367-376 | above 100 keys, the first len − 100 are deleted; otherwise none |
| OptimizedServiceWorker.FetchRoute | optimized-sw.js:77-90 | the same rules over static-v2.0 and dynamic-v2.0 |
| OptimizedServiceWorker.SameRouting | optimized-sw.js:77-90 | both workers bypass the same requests and answer the rest with the same strategy and a cache of the same role |
| OptimizedServiceWorker.CachesToDeleteAsWritten | optimized-sw.js:51-56 | the filter as written: exactly the names satisfying its predicate, and a name without one of the three prefixes is never deleted |
| OptimizedServiceWorker.AsWrittenDeletesCurrent | optimized-sw.js:51-56 | the filter as written deletes the current static-v2.0 and dynamic-v2.0 caches |
| OptimizedServiceWorker.CachesToDelete | optimized-sw.js:51-56 | the corrected filter never deletes the current caches and deletes every other prefixed name |
| OptimizedServiceWorker.FiltersDifferOnlyOnCurrent | optimized-sw.js:51-56 | the written and the corrected filter disagree only on the two current cache names |
| OptimizedServiceWorker.CleanupOldCaches | optimized-sw.js:276-285 | above 50 keys, the first len − 50 are deleted, leaving exactly 50; otherwise none |

## Left out

- DOM rendering, notifications, modal and menu handling, and the display-only change and card computations. They are UI output only.
- The cart engine (`addProduct`, `editItemQuantity`) and shift start and close. They live in modules that are not part of this model. Confirming the keypad returns an `Effect` naming the cart-engine call. The active turn is given state.
- Floating-point money. Amounts are `real`. The `parseFloat` of the "R$ x,yy" form fields is an input: `Option<real>`, where `None` is an empty field. So a NaN value, which passes the withdrawal checks in JavaScript, is not modelled. Nothing is claimed about a split that misses the value by exactly 0.01.
- Keyboard.VirtualKeyboard.ConfirmKeyboard: the `isNaN` guard is not modelled. Every buffer the keypad can build parses, so that guard never fires.
- State.AppState: the keys other modules merge in through `setState` start as ""/0/None here, where JavaScript has them undefined.
- Auth.CredentialStore: the JSON serialisation of the session and recovery records is not modelled. An unreadable record (the `catch` branches) is not modelled either. Lower-casing covers ASCII letters only.
- The recovery code generator. It draws from `Math.random`.
- Persistence.SyncService.EnqueueSync: `dbAddOutbox` is assumed to succeed; the error it can raise, which `enqueueSync` catches and logs, is not modelled.
- Persistence.SyncService.TrySync: sync passes run one after another. The asynchronous interleaving that `enqueueSync` allows, by not awaiting `trySync`, is not modelled.
- The IndexedDB wrappers are the `outbox` sequence field. Whether reading the outbox and deleting an entry succeed are the `listed` flag and the `remove` oracle. The HTTP transport and the remote backend client are the `deliver` oracle and the action values of `TurnSync`.
- Persistence.LoadAppState: it returns the values it assigns to the window globals, not the raw stored object. `saveAppState` is not modelled, because it reads window globals rather than the state record.
- Persistence.TurnSyncAsWritten: "" stands for a missing tipo. So a remote turn with an empty tipo is not told apart from one whose tipo is missing.
- The auto-save wrapper in js/main.js. It re-enqueues the last created record after every processor call, including rejected ones.
- The Cache API strategies (`cacheFirst`, `networkFirst`, `staleWhileRevalidate`), push and background-sync handlers, and the Date-header age pass of `cleanupOldCaches`. They are browser I/O.
- LegacyRegister.Register.KeyPress: keys are single digits, because the page markup is not part of this model. Of the fields the keys write outside integer mode, only the received field is modelled; the custom field's text and a count input's value are display only.
- LegacyRegister.Register.OkKey: the change shown in received mode and the emptying of the custom field are display only.
- LegacyRegister.Register.Finalize: the history entry is a record, not the formatted line. The amount is read with the corrected parse `ParseReceived`; `FinalizeAsWritten` reads it as the source does (see Findings). A disabled button is modelled as a refused call, since the browser never runs the handler then.
- LegacyMoney.FormatBRL: only the output of the pt-BR BRL formatter for non-negative whole cents is modelled, not the rest of `Intl.NumberFormat`.
- LegacyMoney.ParseFloatPrefix: white space, exponents and "Infinity" are not modelled; the character filter removes them before the parse.
- LegacyMoney.ReceivedAsWrittenDropsCents: stated below R$ 1.000,00 only; above it the '.' thousands separator is read as a decimal point, which is not worked out.
- The keypad title and display rendering in `openKeyboard` and `updateKeyboardDisplay`.

## Findings

| source | as written | input that shows it | evidently intended | confidence | as-written member | corrected member |
|---|---|---|---|---|---|---|
| optimized-sw.js:51-56 | conjunction binds tighter than disjunction, so the two exclusions guard only the 'super-caixa-' prefix | cache names ["static-v2.0", "dynamic-v2.0"] at activation | the prefix disjunction parenthesised, as in sw.js:51-57, so the current caches are kept | not executed | OptimizedServiceWorker.AsWrittenDeletesCurrent | OptimizedServiceWorker.CachesToDelete |
| script.js:87-93 | `showKeypad` assigns `activeMode` and `inputBuffer`, so `mode` stays '' and OK never edits a count or adds a custom amount | pencil on a product, key 3, OK on a fresh page | the keypad's `mode` and `buffer` are set | not executed | LegacyRegister.PencilEditAsWritten | LegacyRegister.Register.ShowKeypad |
| script.js:156 | the received field is filtered to digits, ',', '-' and '.' and read with `parseFloat`, which stops at the pt-BR decimal comma | after a click on the received field, keys 1, 2, 5, 0 write "R$ 12,50" into it; finalize reads 12 and refuses a sale of 12.30 as insufficient | read the comma as the decimal point, so the amount written is the amount read | not executed | LegacyRegister.Register.FinalizeAsWritten, LegacyMoney.ReceivedAsWrittenDropsCents | LegacyRegister.Register.Finalize, LegacyMoney.ReceivedRoundTrip |
| js/services/persistence.js:197 | the open remote turn is compared with the turn's own `tipo` before it is derived | a turn with type 'morning' and no tipo, while a 'manha' turn is open remotely | compare with the derived tipo, so an open turn is reused | not executed | Persistence.TurnSyncAsWrittenDuplicates | Persistence.TurnSync |
