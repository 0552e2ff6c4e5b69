// A delivery as the handler holds it: an object that settles through its receipt. Each way of letting
// it go does to the account and to the receipt what the step of the system says.
module Messages {
  import opened Basics
  import opened Account
  import opened World
  import opened InProcess
  import V = Visibility

  class Delivery {
    const receipt: Receipt
    const receives: nat
    const cap: Option<nat>

    /** A delivery with the receive count read off its message, and its registration's cap. */
    constructor (receipt: Receipt, receives: nat, cap: Option<nat>)
      ensures this.receipt == receipt && this.receives == receives && this.cap == cap
    {
      this.receipt, this.receives, this.cap := receipt, receives, cap;
    }

    /** The delivery is in the system: the account is the system's, and the receipt is a handle of it. */
    ghost predicate In(w: World)
      reads receipt, receipt.bus
    {
      && w.account == receipt.bus.State() && receipt.receipt in w.handles
      && var h := w.handles[receipt.receipt];
         && h.queue == receipt.queue && h.visibility == receipt.visibility && h.received == receipt.received
         && h.receives == receives && h.cap == cap && h.settled == receipt.settled
    }

    /** Whether the delivery has used up the receives its registration allows. */
    predicate Spent() { cap.Some? && receives >= cap.value }

    method Acknowledge(ghost w: World, ghost drift: nat)
      requires In(w) && Enabled(w, Settle(receipt.receipt, Ack, drift))
      modifies receipt, receipt.bus
      ensures In(Next(w, Settle(receipt.receipt, Ack, drift)))
    {
      receipt.Delete();
    }

    /** A used-up delivery goes back even when discarded: a receive more moves it to the dead-letter queue. */
    method Reject(requeue: bool, now: nat, ghost w: World, ghost drift: nat)
      requires In(w) && w.now == now && Enabled(w, Settle(receipt.receipt, Nack(requeue), drift))
      modifies receipt, receipt.bus
      ensures In(Next(w, Settle(receipt.receipt, Nack(requeue), drift)))
    {
      hide ChangeVisibility, ChangeRefusal, Delete;
      if requeue || Spent() {
        var refusal := receipt.ChangeVisibility(0, now);
      } else {
        receipt.Delete();
      }
    }

    /** Asks for the delay in whole seconds, or for what is left of the window at the clock read first. */
    method RejectAfter(delay: nat, read: nat, now: nat, ghost w: World)
      requires read <= now && In(w) && w.now == now && Enabled(w, Settle(receipt.receipt, NackAfter(delay), now - read))
      modifies receipt, receipt.bus
      ensures In(Next(w, Settle(receipt.receipt, NackAfter(delay), now - read)))
    {
      hide ChangeVisibility, ChangeRefusal, V.WholeSeconds, V.WindowLeft;
      var requested, left := V.WholeSeconds(delay), V.WindowLeft(SaturatingSub(read, receipt.received));
      var refusal := receipt.ChangeVisibility(Min(requested, left), now);
    }

    /** Lets the handle go, settled or not. */
    method Release(read: nat, now: nat, ghost w: World)
      requires read <= now && In(w) && w.now == now && Enabled(w, Drop(receipt.receipt, now - read))
      modifies receipt, receipt.bus
      ensures receipt.bus.State() == Next(w, Drop(receipt.receipt, now - read)).account
      ensures receipt.receipt !in Next(w, Drop(receipt.receipt, now - read)).handles
    {
      hide ChangeVisibility, V.RemainingVisibility;
      receipt.Drop(read, now);
    }
  }
}
