/** Result and option types shared by every module, with the errors the services return. */
module Common {

  datatype Option<+T> = None | Some(value: T)

  datatype Error =
    | RecordNotFound
    | NotPayable
    | UnknownOrderType
    | MissingSubscription
    | SubscriptionNotFound
    | SubscriptionNotActive
    | ProductMismatch
    | ProductNotFound
    | NoSubscription
    | ParamsError
    | CouponUnavailable
    | InsufficientWallet
    | InsufficientCommission
    | UserNotFound
    | PaymentNotFound
    | Forbidden
    | KeyNotFound
    | SubKeyDuplicate
    | SubKeyLimitExceeded
    | MemberNotInvited
    | MemberExists
    | DuplicateKey

  datatype Result<+T> = Success(value: T) | Failure(error: Error) {
    predicate IsFailure() {
      Failure?
    }

    function PropagateFailure<U>(): Result<U>
      requires Failure?
    {
      Failure(error)
    }

    function Extract(): T
      requires Success?
    {
      value
    }
  }

  function Max(x: int, y: int): int {
    if x < y then y else x
  }

  function Min(x: int, y: int): int {
    if x < y then x else y
  }

  lemma MulKeepsOrder(a: int, b: int, d: int)
    requires d > 0
    ensures a * d <= b * d <==> a <= b
  {
  }
}
