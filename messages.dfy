/**
 * The messages a `Product` records in its `messages` list: the domain events
 * of domain/events.py and the one command the domain emits.
 */
module Messages {
  import opened Wrappers

  /** Facts that happened. Expected-arrival dates are day numbers. */
  datatype Event =
    | OutofStock(sku: string)
    | BatchCreated(ref: string, sku: string, qty: int, eta: Option<int>)
    | Allocated(orderid: string, sku: string, qty: int, batchref: string)
    | BatchQuantityChanged(ref: string, qty: int)

  /** Instructions. Only `Allocate` is emitted by the domain. */
  datatype Command = Allocate(orderid: string, sku: string, qty: int)

  /** One entry of a product's outbox. */
  datatype Message = Event(event: Event) | Command(command: Command)
}
