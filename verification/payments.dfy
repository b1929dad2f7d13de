/**
  Payment requests as callers submit them, and the validation that runs
  before a request is queued (types/payment.go).
*/
module Payments {

  import opened Options

  /** One byte of a Go string; Go's `len` on a string counts bytes, not characters. */
  type Byte = b: int | 0 <= b < 256

  /** Longest description Validate accepts, in bytes. */
  const MaxDescriptionLength := 255

  /**
    The request body: `Amount` is a Go `int`, compared only against zero,
    `Description` is optional (empty when absent) and `Type` is required.
  */
  datatype PaymentRequest = PaymentRequest(amount: int, description: seq<Byte>, paymentType: seq<Byte>)

  /** The three errors Validate can report. */
  datatype ValidationError = AmountNotPositive | TypeRequired | DescriptionTooLong
  {
    /** The text of the Go error value. */
    function Message(): string {
      match this
      case AmountNotPositive => "amount must be positive"
      case TypeRequired => "type is required"
      case DescriptionTooLong => "description too long"
    }

    /** Position of the check that reports this error in Validate's sequence of checks. */
    function Rank(): nat {
      match this
      case AmountNotPositive => 0
      case TypeRequired => 1
      case DescriptionTooLong => 2
    }
  }

  /** The condition the check that reports `check` demands of a request. */
  predicate Passes(p: PaymentRequest, check: ValidationError) {
    match check
    case AmountNotPositive => p.amount > 0
    case TypeRequired => p.paymentType != []
    case DescriptionTooLong => |p.description| <= MaxDescriptionLength
  }

  /** A request every check accepts. */
  predicate IsValid(p: PaymentRequest) {
    forall check: ValidationError :: Passes(p, check)
  }

  /**
    PaymentRequest.Validate: `None` (Go's nil) exactly for valid requests;
    otherwise the error of the FIRST failing check in the order
    amount, type, description. Validate is a function of the request and
    so cannot change it.
  */
  function Validate(p: PaymentRequest): (err: Option<ValidationError>)
    ensures err.None? <==> IsValid(p)
    ensures err.Some? ==> !Passes(p, err.value)
    ensures err.Some? ==> forall check: ValidationError :: check.Rank() < err.value.Rank() ==> Passes(p, check)
  {
    if p.amount <= 0 then
      assert !Passes(p, AmountNotPositive);
      Some(AmountNotPositive)
    else if p.paymentType == [] then
      assert !Passes(p, TypeRequired);
      Some(TypeRequired)
    else if |p.description| > MaxDescriptionLength then
      assert !Passes(p, DescriptionTooLong);
      Some(DescriptionTooLong)
    else
      None
  }

  /** A non-positive amount is reported whatever the other fields hold. */
  lemma AmountCheckedFirst(p: PaymentRequest)
    requires p.amount <= 0
    ensures Validate(p) == Some(AmountNotPositive)
    ensures Validate(p).value.Message() == "amount must be positive"
  {
  }

  /** With amount and type in order, 255 description bytes pass and 256 do not. */
  lemma DescriptionLimitIsInclusive(p: PaymentRequest)
    requires p.amount > 0 && p.paymentType != []
    ensures |p.description| == 255 ==> Validate(p) == None
    ensures |p.description| == 256 ==> Validate(p) == Some(DescriptionTooLong)
  {
  }
}
