/**
 The state of the driver's collection screen (the `App` component): the
 screen step, the amount, the NFC scan status and its cancellation handle,
 the driver's bonus, and the client's PIN popup. Every user action, timer
 completion and NFC callback is a method that updates these fields.

 Timers are the browser's: `simulerSwapNFC` and `validerPinClient` each
 schedule one callback 1500 ms later, and nothing ever cancels it. The
 pending callbacks are kept as fields so that their firing is an event
 method of its own, which needs a callback to be pending.
 */
module SwapApp {
  import opened Amount
  import opened Nfc

  /** `MONTANT` (amount entry), `SWAP` (waiting for NFC), `ATTENTE_PIN`, `SUCCES`, `ECHEC`. */
  datatype Step = Montant | Swap | AttentePin | Succes | Echec

  /** `IDLE`, `PROMPT` (PIN field shown), `PROCESSING` (PIN submitted). */
  datatype PinStep = Idle | Prompt | Processing

  /** A keypad button: `'C'`, the validate arrow `'VAL'`, or one of the digits 0 to 9. */
  datatype Key = Clear | Validate | Digit(value: DigitValue)

  /** The only PIN the simulated verification accepts. */
  const AcceptedPin: string := "1234"

  /** The `maxLength` of the PIN input field. */
  const PinMaxLength := 4

  /** The amount credited to the driver's card per successful transaction. */
  const BonusUnit := 1250

  /** `useState(42)`: the driver's count of successful transactions at start. */
  const InitialBonus := 42

  /** `soldeTotal`, the balance shown on the card: a whole number of bonus units, one per transaction. */
  function SoldeTotal(bonus: nat): (r: nat)
    ensures r % BonusUnit == 0 && r / BonusUnit == bonus
  {
    bonus * BonusUnit
  }

  class Session {
    /** `'NDEFReader' in window`: whether the browser offers Web NFC. */
    const nfcAvailable: bool

    var step: Step
    var montant: string
    var nfcStatus: NfcStatus
    var bonusChauffeur: nat
    var showClientPopup: bool
    var clientPinStep: PinStep
    var pinInput: string
    /** `abortRef.current != null`. */
    var hasAbort: bool

    /** Popup callbacks scheduled by `simulerSwapNFC` and not yet run. */
    var pendingPopups: nat
    /** PIN checks scheduled by `validerPinClient`, oldest first, each with the PIN its closure captured. */
    var pendingPinChecks: seq<string>

    /** Whether the browser's current NFC scan is running (started and not aborted): readings arrive only then. */
    ghost var liveScan: bool

    ghost predicate Valid()
      reads this
    {
      && IsDigits(montant) && |montant| <= MaxAmountDigits
      && |pinInput| <= PinMaxLength
      && (nfcStatus == Scanning ==> liveScan)
      && (liveScan ==> hasAbort)
      && (nfcAvailable <==> nfcStatus != Unsupported)
      && (!nfcAvailable ==> !hasAbort)
    }

    /** The component's first render, followed by its mount effect's availability test. */
    constructor (nfcAvailable: bool)
      ensures Valid()
      ensures this.nfcAvailable == nfcAvailable
      ensures step == Montant && montant == [] && bonusChauffeur == InitialBonus
      ensures nfcStatus == (if nfcAvailable then Ready else Unsupported) && !hasAbort && !liveScan
      ensures !showClientPopup && clientPinStep == Idle && pinInput == []
      ensures pendingPopups == 0 && pendingPinChecks == []
    {
      this.nfcAvailable := nfcAvailable;
      step := Montant;
      montant := [];
      nfcStatus := if nfcAvailable then Ready else Unsupported;
      bonusChauffeur := InitialBonus;
      showClientPopup := false;
      clientPinStep := Idle;
      pinInput := [];
      hasAbort := false;
      pendingPopups := 0;
      pendingPinChecks := [];
      liveScan := false;
    }

    /**
     `handleKeypad`: `'C'` clears the amount, `'VAL'` moves to the NFC step
     when the amount parses to a positive number, a digit is appended while
     the amount has fewer than seven characters. The step is not consulted.
     */
    method HandleKeypad(key: Key)
      requires Valid()
      modifies this`montant, this`step
      ensures Valid()
      ensures key == Clear ==> montant == [] && step == old(step)
      ensures key == Validate ==> montant == old(montant)
      ensures key == Validate ==> step == (if ParsesPositive(old(montant)) then Swap else old(step))
      ensures key == Validate && step != old(step) ==> HasNonZeroDigit(montant) && !ValidateDisabled(montant)
      ensures key.Digit? ==> step == old(step)
      ensures key.Digit? && |old(montant)| < MaxAmountDigits ==> montant == old(montant) + [DigitChar(key.value)]
      ensures key.Digit? && |old(montant)| >= MaxAmountDigits ==> montant == old(montant)
    {
      match key
      case Clear =>
        montant := [];
      case Validate =>
        if ParsesPositive(montant) {
          PositiveIffNonZeroDigit(montant);
          step := Swap;
        }
      case Digit(d) =>
        if |montant| < MaxAmountDigits {
          AppendDigit(montant, d);
          montant := montant + [DigitChar(d)];
        }
    }

    /**
     `stopNfcScan`: aborts and drops the cancellation handle, and a
     `Scanning` status becomes `Ready`; any other status is kept.
     */
    method StopNfcScan()
      requires Valid()
      modifies this`hasAbort, this`nfcStatus, this`liveScan
      ensures Valid()
      ensures !hasAbort && !liveScan
      ensures nfcStatus == StoppedStatus(old(nfcStatus))
    {
      if hasAbort {
        // controller.abort() ends the browser's scan
        liveScan := false;
        hasAbort := false;
      }
      nfcStatus := StoppedStatus(nfcStatus);
    }

    /**
     `startNfcScan`, with the outcome of the browser's `ndef.scan(...)` as
     `scanResolves`. Without Web NFC nothing changes. Otherwise the previous
     scan is stopped, a new cancellation handle is installed before the scan
     is requested, and the status becomes `Scanning` when the scan starts or
     `Error` when it throws (the new handle is then kept).
     */
    method StartNfcScan(scanResolves: bool)
      requires Valid()
      modifies this`hasAbort, this`nfcStatus, this`liveScan
      ensures Valid()
      ensures !nfcAvailable ==>
                hasAbort == old(hasAbort) && nfcStatus == old(nfcStatus) && liveScan == old(liveScan)
      ensures nfcAvailable ==> hasAbort && liveScan == scanResolves
      ensures nfcAvailable ==> nfcStatus == (if scanResolves then Scanning else Error)
    {
      if !nfcAvailable {
        return;
      }
      StopNfcScan();
      hasAbort := true;
      if scanResolves {
        liveScan := true;
        nfcStatus := Scanning;
      } else {
        nfcStatus := Error;
      }
    }

    /** `ndef.onreading`: any tag read stops the scan and hands over to the client's PIN. */
    method OnReading()
      requires Valid() && liveScan
      modifies this`hasAbort, this`nfcStatus, this`liveScan, this`step, this`pendingPopups
      ensures Valid()
      ensures !hasAbort && !liveScan
      ensures nfcStatus == StoppedStatus(old(nfcStatus))
      ensures old(nfcStatus) == Scanning ==> nfcStatus == Ready
      ensures step == AttentePin && pendingPopups == old(pendingPopups) + 1
    {
      StopNfcScan();
      SimulerSwapNfc();
    }

    /** `ndef.onreadingerror`: the status becomes `Error`; the scan itself goes on. */
    method OnReadingError()
      requires Valid() && liveScan
      modifies this`nfcStatus
      ensures Valid()
      ensures nfcStatus == Error
    {
      nfcStatus := Error;
    }

    /** `simulerSwapNFC`: moves to the PIN wait and schedules the client popup. */
    method SimulerSwapNfc()
      requires Valid()
      modifies this`step, this`pendingPopups
      ensures Valid()
      ensures step == AttentePin
      ensures pendingPopups == old(pendingPopups) + 1
    {
      step := AttentePin;
      pendingPopups := pendingPopups + 1;
    }

    /** The popup callback of `simulerSwapNFC` runs: the client's PIN prompt opens. */
    method PopupTimerFires()
      requires Valid() && pendingPopups > 0
      modifies this`pendingPopups, this`showClientPopup, this`clientPinStep
      ensures Valid()
      ensures pendingPopups == old(pendingPopups) - 1
      ensures showClientPopup && clientPinStep == Prompt
    {
      pendingPopups := pendingPopups - 1;
      showClientPopup := true;
      clientPinStep := Prompt;
    }

    /** The PIN field's `onChange`; the field holds at most four characters. */
    method SetPinInput(pin: string)
      requires Valid() && |pin| <= PinMaxLength
      modifies this`pinInput
      ensures Valid()
      ensures pinInput == pin
    {
      pinInput := pin;
    }

    /** `validerPinClient`: shows the processing state and schedules the check of the PIN typed so far. */
    method ValiderPinClient()
      requires Valid()
      modifies this`clientPinStep, this`pendingPinChecks
      ensures Valid()
      ensures clientPinStep == Processing
      ensures pendingPinChecks == old(pendingPinChecks) + [pinInput]
    {
      clientPinStep := Processing;
      pendingPinChecks := pendingPinChecks + [pinInput];
    }

    /**
     The oldest PIN check runs, whatever the session has done since it was
     scheduled: the captured PIN is compared with `"1234"`; a match
     succeeds and credits one transaction, anything else fails.
     */
    method PinTimerFires()
      requires Valid() && pendingPinChecks != []
      modifies this`pendingPinChecks, this`clientPinStep, this`showClientPopup, this`step,
               this`bonusChauffeur, this`pinInput
      ensures Valid()
      ensures pendingPinChecks == old(pendingPinChecks[1..])
      ensures clientPinStep == Idle && !showClientPopup && pinInput == []
      ensures old(pendingPinChecks[0]) == AcceptedPin ==>
                step == Succes && bonusChauffeur == old(bonusChauffeur) + 1 &&
                SoldeTotal(bonusChauffeur) == SoldeTotal(old(bonusChauffeur)) + BonusUnit
      ensures old(pendingPinChecks[0]) != AcceptedPin ==>
                step == Echec && bonusChauffeur == old(bonusChauffeur)
    {
      var submitted := pendingPinChecks[0];
      pendingPinChecks := pendingPinChecks[1..];
      if submitted == AcceptedPin {
        TriggerSuccess();
      } else {
        TriggerFailure();
      }
    }

    /** `triggerSuccess`: closes the popup, shows the success screen and credits one transaction. */
    method TriggerSuccess()
      requires Valid()
      modifies this`clientPinStep, this`showClientPopup, this`step, this`bonusChauffeur, this`pinInput
      ensures Valid()
      ensures clientPinStep == Idle && !showClientPopup && pinInput == []
      ensures step == Succes && bonusChauffeur == old(bonusChauffeur) + 1
      ensures SoldeTotal(bonusChauffeur) == SoldeTotal(old(bonusChauffeur)) + BonusUnit
    {
      clientPinStep := Idle;
      showClientPopup := false;
      step := Succes;
      bonusChauffeur := bonusChauffeur + 1;
      pinInput := [];
    }

    /** `triggerFailure`: closes the popup and shows the failure screen; the bonus is kept. */
    method TriggerFailure()
      requires Valid()
      modifies this`clientPinStep, this`showClientPopup, this`step, this`pinInput
      ensures Valid()
      ensures clientPinStep == Idle && !showClientPopup && pinInput == []
      ensures step == Echec
    {
      clientPinStep := Idle;
      showClientPopup := false;
      step := Echec;
      pinInput := [];
    }

    /**
     `reset`: back to an empty amount entry with the popup closed and the
     scan stopped. The bonus, the popup's PIN step and the pending timer
     callbacks are left as they are.
     */
    method Reset()
      requires Valid()
      modifies this`step, this`montant, this`showClientPopup, this`pinInput,
               this`hasAbort, this`nfcStatus, this`liveScan
      ensures Valid()
      ensures step == Montant && montant == [] && !showClientPopup && pinInput == []
      ensures !hasAbort && !liveScan
      ensures nfcStatus == StoppedStatus(old(nfcStatus))
    {
      step := Montant;
      montant := [];
      showClientPopup := false;
      pinInput := [];
      StopNfcScan();
    }

    /** The back arrow of the contactless screen. */
    method GoBack()
      requires Valid()
      modifies this`step
      ensures Valid()
      ensures step == Montant
    {
      step := Montant;
    }

    /** The popup's "Annuler" button: hides the popup and nothing else. */
    method CancelPopup()
      requires Valid()
      modifies this`showClientPopup
      ensures Valid()
      ensures !showClientPopup
    {
      showClientPopup := false;
    }
  }
}
