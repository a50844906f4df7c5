/** The ordering policies of flag-bearer-queue/src/order.rs. */
module Orders {

  datatype FairOrder = Lifo | Fifo

  function FairFront(o: FairOrder, queued: int): (FairOrder, bool) { (o, o.Lifo?) }

  datatype Hybrid = Hybrid(lifoAbove: nat)

  function HybridFront(o: Hybrid, queued: int): (Hybrid, bool) { (o, queued > o.lifoAbove) }
}
