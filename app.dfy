/**
 * The two input checks the chat page runs before it sends a message:
 * `validateMessage` and `isRateLimited`. The clock (`Date.now()`) is a
 * parameter.
 */
module App {
  import opened Js

  /** The longest message accepted, in UTF-16 code units. */
  const MaxLength: nat := 500
  /** The default minimum gap between two requests, in milliseconds. */
  const DefaultMinInterval: int := 1000

  const BlankError: string := "メッセージを入力してください"
  const LengthError: string := "メッセージは500文字以内で入力してください"

  /** `{ valid: true }` or `{ valid: false, error }`. */
  datatype Validation = Valid | Invalid(error: string)

  /** `validateMessage(message)`: a missing or blank message is refused
      first, then one longer than 500 code units; anything else passes.
      A message of 600 spaces is therefore refused as blank. */
  function ValidateMessage(message: Option<string>): (v: Validation)
    ensures v == Invalid(BlankError) <==> message.None? || IsBlank(message.value)
    ensures v == Invalid(LengthError) <==>
              message.Some? && !IsBlank(message.value) && Utf16Length(message.value) > MaxLength
    ensures v == Valid <==> message.Some? && !IsBlank(message.value) && Utf16Length(message.value) <= MaxLength
  {
    if !Truthy(message) then Invalid(BlankError)
    else
      TrimEmptyIffBlank(message.value);
      if |Trim(message.value)| == 0 then Invalid(BlankError)
      else if Utf16Length(message.value) > MaxLength then Invalid(LengthError)
      else Valid
  }

  /** `isRateLimited(lastRequestTime, minInterval)` at time `now`: a
      request is limited until the moment `minInterval` after the last
      one; a clock reading before the last request is limited too when the
      interval is positive. */
  function IsRateLimited(now: int, lastRequestTime: int, minInterval: int := DefaultMinInterval): (limited: bool)
    ensures limited <==> now < lastRequestTime + minInterval
    ensures now < lastRequestTime && minInterval > 0 ==> limited
  {
    now - lastRequestTime < minInterval
  }

  /** With the default interval a request is limited exactly during the
      second after the previous one; once the interval has passed it stays
      passed as the clock moves on. */
  lemma RateLimitWindow(now: int, later: int, lastRequestTime: int, minInterval: int)
    ensures IsRateLimited(now, lastRequestTime) <==> now < lastRequestTime + 1000
    ensures now <= later && !IsRateLimited(now, lastRequestTime, minInterval) ==>
              !IsRateLimited(later, lastRequestTime, minInterval)
  {
  }
}
