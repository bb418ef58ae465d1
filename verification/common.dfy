/** Results, the exact error messages of the two services, and fail-fast
    validation as an ordered list of rules. */
module Common {

  datatype Option<+T> = None | Some(value: T)

  /** The `(value, error)` pair every service operation returns. */
  datatype Result<+T> = Success(value: T) | Failure(error: Error)

  /** Every error the services can return. All but the last two are raised by
      the services themselves with a fixed message; `RecordNotFound` is the
      storage's own lookup error and `HashFailed` the hasher's, both returned
      unchanged. */
  datatype Error =
    | DateBlank
    | FromAfterTo
    | OrderIdsBlank
    | QuantityBlank
    | ProductNotFound
    | UserNotFound
    | MinimumQuantity
    | QuantityBelowOne
    | OrderNotFound
    | UserFieldsBlank
    | InvalidUsername
    | InvalidEmail
    | UsernameExists
    | PasswordTooShort
    | PasswordNoLetter
    | PasswordNoDigit
    | UpdateFieldsBlank
    | RecordNotFound
    | HashFailed(reason: string)
  {
    /** The text the caller receives: a fixed, non-empty literal for every
        error the services raise themselves, the hasher's own text otherwise. */
    function Message(): (m: string)
      ensures !HashFailed? ==> |m| > 0
    {
      match this
      case DateBlank => "date cannot be blank"
      case FromAfterTo => "'from' date cannot be after 'to' date"
      case OrderIdsBlank => "user id and product id cannot be blank"
      case QuantityBlank => "quantity cannot be blank"
      case ProductNotFound => "product not found"
      case UserNotFound => "user not found"
      case MinimumQuantity => "minimum quantity is 1"
      case QuantityBelowOne => "quantity cannot be less than 1"
      case OrderNotFound => "order not found"
      case UserFieldsBlank => "username, fullname, email, and password cannot be blank"
      case InvalidUsername => "usernames can only contain letters and numbers, with no spaces allowed"
      case InvalidEmail => "please enter a valid email address"
      case UsernameExists => "username already exists"
      case PasswordTooShort => "password must be at least 8 characters long"
      case PasswordNoLetter => "password must contain at least one letter"
      case PasswordNoDigit => "password must contain at least one number"
      // the check is on the full name, but the message names the username
      case UpdateFieldsBlank => "username and email cannot be blank"
      case RecordNotFound => "record not found"
      case HashFailed(reason) => reason
    }
  }

  /** One check of a fail-fast validation chain: the condition that must hold
      and the error reported when it does not. */
  datatype Rule = Rule(holds: bool, error: Error)

  /** Index of the first rule that does not hold, or `|rules|` when all hold. */
  function FirstFailing(rules: seq<Rule>): (k: nat)
    ensures k <= |rules|
    ensures forall j :: 0 <= j < k ==> rules[j].holds
    ensures k < |rules| ==> !rules[k].holds
  {
    if |rules| == 0 then 0
    else if !rules[0].holds then 0
    else 1 + FirstFailing(rules[1..])
  }

  /** The outcome of checking `rules` in order and stopping at the first
      violation: the reference every validation chain below is proved against. */
  function FirstFailure(rules: seq<Rule>): (r: Option<Error>)
    ensures r.None? <==> forall j :: 0 <= j < |rules| ==> rules[j].holds
    ensures r.Some? ==> exists k :: 0 <= k < |rules| && !rules[k].holds && rules[k].error == r.value
  {
    var k := FirstFailing(rules);
    if k == |rules| then None else Some(rules[k].error)
  }

  /** When rule `k` is the first to fail, its error is the one reported. */
  lemma FirstFailureAt(rules: seq<Rule>, k: nat)
    requires k < |rules| && !rules[k].holds
    requires forall j :: 0 <= j < k ==> rules[j].holds
    ensures FirstFailure(rules) == Some(rules[k].error)
  {
  }
}
