# Swap collection screen: a verified model

This project models the logic of the driver's "tap-to-pay" collection screen of the swap demo application (the `App` component). The driver types an amount on a keypad and validates it. The app then waits for a contactless (Web NFC) read, or for the manual "simulate" button. Next, a simulated client PIN popup appears, and the app shows a success or failure screen. On success the driver's transaction count (`bonusChauffeur`) goes up by one, and the displayed balance goes up by 1250.

- `amount.dfy` (module `Amount`): the amount as a digit string. It also covers the two JavaScript expressions that read the amount: the validate key's guard `parseInt(montant) > 0` and the validate button's `disabled` flag `!parseInt(montant) > 0`. `parseInt` is modelled with its `NaN` result on the empty string, and JavaScript's coercions (`!` on `NaN`/`0`, a boolean compared with a number) are written out.
- `nfc.dfy` (module `Nfc`): the NFC scan status and the update that stopping a scan applies to it.
- `session.dfy` (module `SwapApp`): the class `Session`. Its fields are the component's state hooks: `step`, `montant`, `nfcStatus`, `bonusChauffeur`, `showClientPopup`, `clientPinStep` and `pinInput`. The field `hasAbort` stands for `abortRef.current != null`. Each handler is a method with a frame naming exactly the fields it sets. The object invariant `Valid()` says:
  - the amount is a digit string of at most 7 characters;
  - the PIN holds at most 4 characters;
  - the status is `Scanning` only while a browser scan is live, and a live scan always has its cancellation handle;
  - without Web NFC, the status is `Unsupported` and there is no handle.
- Timers: both `setTimeout` callbacks (the popup after `simulerSwapNFC`, the PIN check after `validerPinClient`) are kept as pending callbacks on the session. Their firing is its own event method, which needs a pending callback. The PIN check carries the PIN its closure captured when "Valider" was pressed. Both delays are 1500 ms, so checks run oldest first.
- `scenarios.dfy` (module `Scenarios`): runs of the screen proved from the method contracts alone. They cover the correct-PIN and wrong-PIN walkthroughs, the scan-then-read hand-off, the idempotence of a stop, the validate button agreeing with the validate key, and a PIN check that still applies after a reset.

`reset` (`App.jsx`, lines 153-159) cancels only the NFC scan. It does not cancel the popup or PIN-check timeouts, and it does not touch `clientPinStep`. A PIN check submitted before a reset therefore still runs afterwards and moves the fresh amount screen to `SUCCES` or `ECHEC`; `Scenarios.PinCheckOutlivesReset` proves that run.

## Model

| member | source | states |
|---|---|---|
| `Amount.DigitChar` | swap-app-vercel/src/App.jsx:101 | the character appended for a digit button is a decimal digit whose value is the button's digit |
| `Amount.AmountValue` | swap-app-vercel/src/App.jsx:98 | the decimal value of a digit string of length n is below 10^n (so at most 9999999 for the 7-digit amount) |
| `Amount.ParseInt` | swap-app-vercel/src/App.jsx:98 | `parseInt` of a digit string is `NaN` exactly on the empty string, and otherwise a number below 10^length |
| `Amount.ZeroValueIffNoNonZeroDigit` | swap-app-vercel/src/App.jsx:98 | a digit string is worth 0 exactly when it has no non-zero digit |
| `Amount.PositiveIffNonZeroDigit` | swap-app-vercel/src/App.jsx:97-98 | `parseInt(montant) > 0` holds exactly when the amount is non-empty and not all zeros |
| `Amount.ValidateDisabled` | swap-app-vercel/src/App.jsx:272 | the button's `disabled` flag `!parseInt(montant) > 0` is set exactly when `parseInt(montant) > 0` fails, that is, when the amount has no non-zero digit |
| `Amount.AppendDigit` | swap-app-vercel/src/App.jsx:101 | appending a digit keeps a digit string and turns value v into 10·v + digit |
| `Nfc.StoppedStatus` | swap-app-vercel/src/App.jsx:84 | after a stop the status is never `SCANNING`, every other status is kept, and the only change is to `READY` |
| `Nfc.StoppedStatusIdempotent` | swap-app-vercel/src/App.jsx:76-88 | applying the stop's status update twice equals applying it once |
| `SwapApp.SoldeTotal` | swap-app-vercel/src/App.jsx:162 | the card balance is a whole number of 1250 units, one per successful transaction |
| `SwapApp.Session.constructor` | swap-app-vercel/src/App.jsx:16-35 | initial state: amount entry, empty amount, 42 transactions, popup closed and `IDLE`, empty PIN, no handle, no pending timers, status `READY` with Web NFC and `UNSUPPORTED` without |
| `SwapApp.Session.HandleKeypad` | swap-app-vercel/src/App.jsx:95-103 | `C` empties the amount and keeps the step; `VAL` keeps the amount and moves to `SWAP` exactly when `parseInt(montant) > 0`, else changes nothing; a digit is appended only below 7 characters, and is otherwise ignored; the amount stays a digit string of at most 7 characters |
| `SwapApp.Session.StopNfcScan` | swap-app-vercel/src/App.jsx:76-88 | the handle is dropped, the live scan ends, `SCANNING` becomes `READY` and any other status is kept; nothing else changes |
| `SwapApp.Session.StartNfcScan` | swap-app-vercel/src/App.jsx:41-71 | without Web NFC nothing changes; otherwise a new handle is installed and the status ends `SCANNING` if `scan()` resolves and `ERROR` if it throws |
| `SwapApp.Session.OnReading` | swap-app-vercel/src/App.jsx:55-60 | a tag read stops the scan (`SCANNING` becomes `READY`, handle dropped), moves to `ATTENTE_PIN` and schedules the popup |
| `SwapApp.Session.OnReadingError` | swap-app-vercel/src/App.jsx:62-65 | a read error sets the status to `ERROR` and nothing else |
| `SwapApp.Session.SimulerSwapNfc` | swap-app-vercel/src/App.jsx:108-116 | moves to `ATTENTE_PIN` and schedules exactly one popup callback; nothing else changes |
| `SwapApp.Session.PopupTimerFires` | swap-app-vercel/src/App.jsx:112-115 | the popup callback shows the popup with the PIN `PROMPT`; nothing else changes |
| `SwapApp.Session.SetPinInput` | swap-app-vercel/src/App.jsx:435-437 | the PIN field holds what was typed (at most 4 characters) |
| `SwapApp.Session.ValiderPinClient` | swap-app-vercel/src/App.jsx:121-127 | the popup shows `PROCESSING` and a check of the PIN typed so far is queued behind earlier ones |
| `SwapApp.Session.PinTimerFires` | swap-app-vercel/src/App.jsx:123-126 | the oldest check runs whatever happened since: with `"1234"` the step is `SUCCES`, the bonus rises by exactly 1 and the balance by 1250; otherwise the step is `ECHEC` and the bonus is kept; both close the popup, set `IDLE` and empty the PIN |
| `SwapApp.Session.TriggerSuccess` | swap-app-vercel/src/App.jsx:132-138 | `SUCCES`, bonus + 1 (balance + 1250), popup closed, `IDLE`, empty PIN, nothing else changes |
| `SwapApp.Session.TriggerFailure` | swap-app-vercel/src/App.jsx:143-148 | `ECHEC`, bonus kept, popup closed, `IDLE`, empty PIN, nothing else changes |
| `SwapApp.Session.Reset` | swap-app-vercel/src/App.jsx:153-159 | amount entry with empty amount, popup closed, empty PIN, scan stopped with the stop's status update; the bonus, `clientPinStep` and pending timer callbacks are left untouched |
| `SwapApp.Session.GoBack` | swap-app-vercel/src/App.jsx:288 | the back arrow sets the step to `MONTANT` and nothing else |
| `SwapApp.Session.CancelPopup` | swap-app-vercel/src/App.jsx:444 | "Annuler" hides the popup and nothing else (the PIN step stays `PROMPT`) |
| `Scenarios.EnterAmountAndHandOver` | swap-app-vercel/src/App.jsx:95-116 | keys 1, 5, 0, 0 then `VAL` give amount "1500" and `SWAP`; the manual trigger and its callback then open the PIN prompt at `ATTENTE_PIN` |
| `Scenarios.CorrectPinScenario` | swap-app-vercel/src/App.jsx:121-138 | amount 1500, hand-off, PIN "1234": success showing 1500, 43 transactions, balance up by 1250 |
| `Scenarios.WrongPinThenResetScenario` | swap-app-vercel/src/App.jsx:143-159 | same run with a wrong PIN: failure with the bonus kept; a reset then gives amount entry with empty amount and PIN |
| `Scenarios.ScanThenReadScenario` | swap-app-vercel/src/App.jsx:41-88 | with Web NFC, a scan that starts shows `SCANNING`; a read then leaves `READY`, no handle, and `ATTENTE_PIN` |
| `Scenarios.ScanWithoutNfcScenario` | swap-app-vercel/src/App.jsx:42 | without Web NFC a scan request leaves `UNSUPPORTED` and no handle, whatever the hardware would do |
| `Scenarios.StopTwice` | swap-app-vercel/src/App.jsx:76-88 | two stops in a row leave the same handle, live scan and status as one stop |
| `Scenarios.ValidateMatchesButton` | swap-app-vercel/src/App.jsx:270-272 | on the amount screen, `VAL` leaves the step unchanged exactly when the validate button is disabled, and otherwise moves to `SWAP` |
| `Scenarios.PinCheckOutlivesReset` | swap-app-vercel/src/App.jsx:121-159 | a wrong PIN submitted before a reset is still checked after it: the reset leaves `PROCESSING`, then the fresh amount screen becomes `ECHEC` |

## Left out

- Rendering and styling (lines 166-460) are left out, except for the validate button's `disabled` expression, which is modelled.
- The browser objects behind NFC are left out: `new NDEFReader()`, `AbortController`, `controller.abort()` and the event objects. A boolean handle stands in for them, and the ghost flag `liveScan` stands for "the browser's scan is running". A scan's outcome is a parameter. The read handlers need a live scan, because the browser only reports readings for a scan that has not been aborted.
- `ndefRef` is written (lines 49 and 82) but never read, so it is not modelled.
- `SwapApp.Session.StartNfcScan`: takes only two outcomes, `scan()` resolving or throwing. A throw from the `NDEFReader` or `AbortController` constructors, before the handle is installed, is not modelled.
- `SwapApp.Session.StartNfcScan`: runs as one atomic step. Another event arriving while `await ndef.scan(...)` is pending is not modelled.
- The `try`/`catch` around `stopNfcScan`'s body (lines 77-87) is left out: nothing inside it can throw in the model.
- `async`/`await` and `setTimeout` scheduling are left out. Each timer completion is an explicit event method, and the 1500 ms delays are not modelled beyond first-in first-out order among PIN checks.
- `navigator.vibrate`, `console.*`, `toLocaleString` and `toLocaleTimeString` formatting, and the avatar URL are left out. They are side effects or locale formatting with nothing to state.
- The mount effect (lines 31-35) is left out. Its availability test is the constructor's parameter. Its unmount cleanup is the same `StopNfcScan`.
- `DATABASE_CARTES` (lines 10-12) is left out because nothing reads it.
- The PIN field's `maxLength={4}` (line 436) is a browser-enforced attribute. It appears only as `SetPinInput`'s precondition and as part of `Valid()`.
- `SwapApp.SoldeTotal` and `bonusChauffeur` are unbounded integers. JavaScript's double precision (exact up to 2^53) is not modelled, because no reachable count comes near that bound.
