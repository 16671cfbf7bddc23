/**
 The status of the Web NFC scan shown on the contactless screen, and the
 status update `stopNfcScan` applies to it.
 */
module Nfc {

  /** `UNSUPPORTED`, `READY`, `SCANNING`, `ERROR` (the `STOPPED` of the source's comment is never set). */
  datatype NfcStatus = Unsupported | Ready | Scanning | Error

  /**
   `prev === 'SCANNING' ? 'READY' : prev`: after a stop the status is never
   `Scanning`, any other status is kept, and the only status that changes
   becomes `Ready`.
   */
  function StoppedStatus(prev: NfcStatus): (r: NfcStatus)
    ensures r != Scanning
    ensures prev != Scanning ==> r == prev
    ensures r != prev ==> r == Ready
  {
    if prev == Scanning then Ready else prev
  }

  /** Stopping a scan twice gives the status stopping it once gives. */
  lemma StoppedStatusIdempotent(prev: NfcStatus)
    ensures StoppedStatus(StoppedStatus(prev)) == StoppedStatus(prev)
  {
  }
}
