/**
 Runs of the collection screen, proved from the contracts of the session's
 methods alone: the two walkthroughs of a collection, the NFC hand-off, the
 idempotence of a stop, the validate button's agreement with the validate
 key, and a PIN check that still applies after a reset.
 */
module Scenarios {
  import opened Amount
  import opened Nfc
  import opened SwapApp

  /** Types "1500", validates, and brings the client's PIN prompt up by the manual trigger. */
  method EnterAmountAndHandOver(s: Session)
    requires s.Valid() && s.step == Montant && s.montant == [] && s.pendingPopups == 0
    modifies s`montant, s`step, s`pendingPopups, s`showClientPopup, s`clientPinStep
    ensures s.Valid()
    ensures s.montant == "1500" && s.step == AttentePin && s.pendingPopups == 0
    ensures s.showClientPopup && s.clientPinStep == Prompt
  {
    s.HandleKeypad(Digit(1));
    assert s.montant == "1";
    s.HandleKeypad(Digit(5));
    assert s.montant == "15";
    s.HandleKeypad(Digit(0));
    assert s.montant == "150";
    s.HandleKeypad(Digit(0));
    assert s.montant == "1500";
    PositiveIffNonZeroDigit(s.montant);
    assert s.montant[0] != '0';
    s.HandleKeypad(Validate);
    assert s.step == Swap;
    s.SimulerSwapNfc();
    s.PopupTimerFires();
  }

  /** An amount of 1500, the hand-off, then the accepted PIN: success showing 1500, one more transaction. */
  method CorrectPinScenario(nfcAvailable: bool) returns (step: Step, montant: string, bonus: nat, balance: nat)
    ensures step == Succes && montant == "1500"
    ensures bonus == InitialBonus + 1 && balance == SoldeTotal(InitialBonus) + BonusUnit
  {
    var s := new Session(nfcAvailable);
    EnterAmountAndHandOver(s);
    s.SetPinInput("1234");
    s.ValiderPinClient();
    s.PinTimerFires();
    step, montant, bonus, balance := s.step, s.montant, s.bonusChauffeur, SoldeTotal(s.bonusChauffeur);
  }

  /** The same run with a wrong PIN fails without credit; a reset then clears the amount and the PIN. */
  method WrongPinThenResetScenario(nfcAvailable: bool) returns (failed: Step, bonus: nat, step: Step, montant: string, pin: string)
    ensures failed == Echec && bonus == InitialBonus
    ensures step == Montant && montant == [] && pin == []
  {
    var s := new Session(nfcAvailable);
    EnterAmountAndHandOver(s);
    s.SetPinInput("4321");
    s.ValiderPinClient();
    s.PinTimerFires();
    failed, bonus := s.step, s.bonusChauffeur;
    s.Reset();
    step, montant, pin := s.step, s.montant, s.pinInput;
  }

  /**
   With Web NFC present, a scan that starts and then reads a tag leaves the
   status `Ready`, no cancellation handle, and the session waiting for the
   client's PIN.
   */
  method ScanThenReadScenario() returns (scanning: NfcStatus, status: NfcStatus, handle: bool, step: Step)
    ensures scanning == Scanning
    ensures status == Ready && !handle && step == AttentePin
  {
    var s := new Session(true);
    s.StartNfcScan(true);
    scanning := s.nfcStatus;
    s.OnReading();
    status, handle, step := s.nfcStatus, s.hasAbort, s.step;
  }

  /** Without Web NFC, asking for a scan changes nothing and the status stays `Unsupported`. */
  method ScanWithoutNfcScenario(scanResolves: bool) returns (status: NfcStatus, handle: bool)
    ensures status == Unsupported && !handle
  {
    var s := new Session(false);
    s.StartNfcScan(scanResolves);
    status, handle := s.nfcStatus, s.hasAbort;
  }

  /** Stopping twice leaves the handle, the live scan and the status as stopping once does. */
  method StopTwice(s: Session)
    requires s.Valid()
    modifies s`hasAbort, s`nfcStatus, s`liveScan
    ensures s.Valid()
    ensures !s.hasAbort && !s.liveScan && s.nfcStatus == StoppedStatus(old(s.nfcStatus))
  {
    s.StopNfcScan();
    ghost var once := s.nfcStatus;
    s.StopNfcScan();
    assert s.nfcStatus == once;
  }

  /** On the amount screen, the validate key leaves the step alone exactly when its button is disabled. */
  method ValidateMatchesButton(s: Session)
    requires s.Valid() && s.step == Montant
    modifies s`montant, s`step
    ensures s.Valid()
    ensures s.montant == old(s.montant)
    ensures s.step == Montant <==> ValidateDisabled(old(s.montant))
    ensures s.step != Montant ==> s.step == Swap
  {
    s.HandleKeypad(Validate);
  }

  /**
   A wrong PIN is submitted and the driver resets before its check runs:
   the reset leaves the popup's PIN step at `Processing`, the check still
   runs, and the amount screen just reset switches to the failure screen
   with an empty amount.
   */
  method PinCheckOutlivesReset(nfcAvailable: bool) returns (afterReset: Step, pinStepAfterReset: PinStep, step: Step, montant: string)
    ensures afterReset == Montant && pinStepAfterReset == Processing
    ensures step == Echec && montant == []
  {
    var s := new Session(nfcAvailable);
    EnterAmountAndHandOver(s);
    s.SetPinInput("0000");
    s.ValiderPinClient();
    s.Reset();
    afterReset, pinStepAfterReset := s.step, s.clientPinStep;
    s.PinTimerFires();
    step, montant := s.step, s.montant;
  }
}
