/**
 * The write buffer of one file: the fields of a `fileHandle` that Release, the timers, renames,
 * reopens, unlinks and unmount read and write, and what each of them does to those fields.
 * The protocol over many buffers (SaveProtocol) and the imperative version (WriteBuffers) are both
 * built from these functions.
 */
module Buffers {

  /** Seconds before the first retry of a failed upload, and the longest wait between retries. */
  const UPLOAD_RETRY_DELAY: nat := 30
  const UPLOAD_RETRY_MAX: nat := 1800

  datatype Buffer = Buffer(
    hasTmp: bool,
    dirty: bool,
    parked: bool,
    timer: bool,
    due: bool,
    retryIn: nat,
    failed: bool,
    gone: bool)
  {
    /** Release keeps the temp file; a positive delay also arms the timer. */
    function Park(delay: nat): Buffer {
      this.(hasTmp := true, parked := true, timer := delay > 0)
    }

    /** The timer ran out, or unmount uploads the buffer now. */
    function Settle(): Buffer {
      this.(parked := false, timer := false, dirty := true, due := true)
    }

    /** A rename, a reopen or an unlink takes the parked buffer back. */
    function Unpark(asDirty: bool): Buffer {
      var back := this.(parked := false, timer := false, dirty := asDirty);
      if asDirty then back.(retryIn := 0, failed := false) else back
    }

    /** Unmount lets go of a parked buffer. */
    function Abandon(): Buffer {
      this.(parked := false, timer := false)
    }

    /** One more upload failed in a way a retry may fix. */
    function BackOff(): Buffer {
      this.(retryIn := Min(Max(2 * retryIn, UPLOAD_RETRY_DELAY), UPLOAD_RETRY_MAX))
    }

    /** The upload failed in a way no retry fixes. */
    function GiveUp(): Buffer {
      this.(failed := true)
    }

    /** The handle lets go of its temp file. */
    function Detach(): Buffer {
      this.(hasTmp := false)
    }
  }

  function Max(x: nat, y: nat): nat {
    if x < y then y else x
  }

  function Min(x: nat, y: nat): nat {
    if x < y then x else y
  }

  ghost function Pow2(n: nat): nat {
    if n == 0 then 1 else 2 * Pow2(n - 1)
  }

  /** The wait after n transient failures in a row: min(30 s * 2^(n-1), 30 min). */
  ghost function WaitAfter(n: nat): nat {
    if n == 0 then 0 else Min(UPLOAD_RETRY_DELAY * Pow2(n - 1), UPLOAD_RETRY_MAX)
  }

  lemma {:induction false} Pow2IsPositive(n: nat)
    ensures Pow2(n) > 0
  {
    if n > 0 { Pow2IsPositive(n - 1); }
  }

  /** One more failure makes a buffer's wait the next one up. */
  lemma BackOffIsNextWait(b: Buffer, n: nat)
    requires b.retryIn == WaitAfter(n)
    ensures b.BackOff().retryIn == WaitAfter(n + 1)
  {
    if n > 0 {
      Pow2IsPositive(n - 1);
      assert Pow2(n) == 2 * Pow2(n - 1);
    }
  }
}
