/**
 * The wake-up channel of the media, healthcheck and enrichment workers
 * (workers/media.go, workers/healthcheck.go, workers/enrichment.go): a
 * channel of capacity one, written with a non-blocking send.
 */
module Signal {

  /** The one slot of the channel: full while a trigger waits to be received. */
  class TriggerSlot {
    var pending: bool

    /** make(chan struct{}, 1): an empty slot. */
    constructor ()
      ensures !pending
    {
      pending := false;
    }

    /**
     * select { case ch <- struct{}{}: default: }: the send goes through only
     * when the slot is empty; otherwise the trigger is dropped. Either way a
     * trigger is pending afterwards.
     */
    method Trigger() returns (sent: bool)
      modifies this
      ensures pending
      ensures sent <==> !old(pending)
    {
      sent := !pending;
      pending := true;
    }

    /** The worker loop's receive: it takes the pending trigger, if there is one. */
    method Take() returns (woken: bool)
      modifies this
      ensures !pending
      ensures woken == old(pending)
    {
      woken := pending;
      pending := false;
    }

    /** Two triggers before the worker receives wake it only once. */
    method TriggerTwice() returns (first: bool, second: bool, woken: bool, again: bool)
      modifies this
      ensures !second && woken && !again
    {
      first := Trigger();
      second := Trigger();
      woken := Take();
      again := Take();
    }
  }
}
