/** The error kinds an order request can be rejected with (the order-related
    constants of the backend's response-status table) and the two result
    shapes the order operations return instead of throwing. */
module Kinds {

  datatype Kind =
    | EventNotFound     // ORDER_FAIL_EVENT_NOT_FOUND
    | UnopenedEvent     // ORDER_FAIL_UNOPENED_EVENT
    | ExpiredEvent      // ORDER_FAIL_EXPIRED_EVENT
    | ProductNotFound   // ORDER_FAIL_PRODUCT_NOT_FOUND
    | LackStock         // ORDER_CREATE_FAIL_LACK_STOCK
    | OrderNotFound     // ORDER_FAIL_NOT_FOUND
    | PaymentFail       // ORDER_PAYMENT_FAIL
    | CancelFail        // ORDER_CANCEL_FAIL

  /** Result of an operation that returns nothing on success (a `void` method
      that throws on failure). */
  datatype Outcome = Pass | Fail(kind: Kind)

  /** A lookup that may find nothing (`Optional` of the repositories). */
  datatype Option<T> = None | Some(value: T)

  /** Result of an operation that returns a value on success. */
  datatype Result<T> = Ok(value: T) | Err(kind: Kind)
}
