/**
 * The field checks that the login, register and forgot-password screens each
 * write out for themselves: the submit-time check, which reports an empty
 * field once a submit has been attempted, and the real-time check run on
 * every edit, which never reports an empty field.
 */
module FormValidation {
  import opened Wrappers

  const EmptyEmailMessage: string := "請輸入電子郵件"
  const EmptyPasswordMessage: string := "請輸入密碼"
  const EmptyConfirmMessage: string := "請確認密碼"
  const BadEmailMessage: string := "電子郵件格式不正確"
  const TooShortMessage: string := "密碼至少需要6個字符"
  const MismatchMessage: string := "密碼不匹配"
  const FixErrorsMessage: string := "請修正上述錯誤後再試"

  /**
   * The submit-time check of one field (`validateEmail`, `validatePassword`,
   * `validateConfirmPassword`): an empty field is an error only after a
   * submit attempt; a non-empty field is an error when it is not acceptable.
   */
  function SubmitTimeError(value: string, attempted: bool, acceptable: bool,
                           emptyMessage: string, invalidMessage: string): (r: Option<string>)
    ensures r.Some? <==> (value == "" && attempted) || (value != "" && !acceptable)
    ensures r.Some? ==> r.value == if value == "" then emptyMessage else invalidMessage
  {
    if value == "" then
      (if attempted then Some(emptyMessage) else None)
    else if !acceptable then
      Some(invalidMessage)
    else
      None
  }

  /**
   * The real-time check of one field (`validateEmailRealTime` and its
   * siblings): an error exactly when the field is non-empty and not acceptable.
   */
  function RealTimeError(value: string, acceptable: bool, invalidMessage: string): (r: Option<string>)
    ensures r.Some? <==> value != "" && !acceptable
    ensures r.Some? ==> r.value == invalidMessage
  {
    if value != "" && !acceptable then Some(invalidMessage)
    else None
  }

  /** The real-time check is the submit-time check before any submit attempt. */
  lemma RealTimeIsSubmitBeforeAttempt(value: string, acceptable: bool, emptyMessage: string, invalidMessage: string)
    ensures RealTimeError(value, acceptable, invalidMessage)
         == SubmitTimeError(value, false, acceptable, emptyMessage, invalidMessage)
  {
  }

  /** After a submit attempt a field passes exactly when it is non-empty and acceptable. */
  lemma SubmitAttemptPasses(value: string, acceptable: bool, emptyMessage: string, invalidMessage: string)
    ensures SubmitTimeError(value, true, acceptable, emptyMessage, invalidMessage).None?
        <==> value != "" && acceptable
  {
  }
}
