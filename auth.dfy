/** The login and sign-up form (components/Auth.tsx): the phone field's input
    sanitiser and the ordered checks `handleSubmit` makes before handing the
    credentials to the authentication callback. */
module Auth {
  import opened Wrappers
  import opened Seqs
  import opened Text

  /** What the phone field keeps of typed input: its digits, at most ten. */
  function SanitizePhone(raw: string): (phone: string)
    ensures |phone| <= 10
    ensures forall i :: 0 <= i < |phone| ==> IsDigit(phone[i])
    ensures phone <= DigitsOnly(raw)
    ensures |phone| == if |DigitsOnly(raw)| <= 10 then |DigitsOnly(raw)| else 10
  {
    Take(DigitsOnly(raw), 10)
  }

  /** Sanitising what is already sanitised changes nothing. */
  lemma SanitizeIdempotent(raw: string)
    ensures SanitizePhone(SanitizePhone(raw)) == SanitizePhone(raw)
  {
    var phone := SanitizePhone(raw);
    FilterKeepsAll(phone, IsDigit);
  }

  /** The sanitiser drops exactly the non-digits: on input that is all digits
      and at most ten long it is the identity. */
  lemma SanitizeKeepsPhoneNumbers(raw: string)
    requires |raw| <= 10 && forall i :: 0 <= i < |raw| ==> IsDigit(raw[i])
    ensures SanitizePhone(raw) == raw
  {
    FilterKeepsAll(raw, IsDigit);
  }

  datatype Language = En | Hi | Te | Ta | Kn

  /** The translated texts the checks fall back on outside English. */
  datatype Texts = Texts(phone: string, passwordMismatch: string, password: string)

  /** The form's state when it is submitted. */
  datatype Form = Form(isRegister: bool, name: string, phone: string, password: string, confirmPassword: string)

  /** The credentials handed to `onAuth`. */
  datatype Credentials = Credentials(name: string, phone: string, password: string, isRegister: bool)

  datatype Rejection = PhoneTooShort | PasswordMismatch | PasswordTooShort

  /** What a submission leads to: the first failed check, or the call. */
  datatype Submission = Rejected(why: Rejection) | CallAuth(creds: Credentials)

  /** `handleSubmit`'s checks in their order: phone length first, then (when
      registering) the confirmation, then the password length. */
  function Submit(f: Form): (r: Submission)
    ensures r.CallAuth? <==> |f.phone| >= 10 && (!f.isRegister || f.password == f.confirmPassword) && |f.password| >= 6
    ensures |f.phone| < 10 ==> r == Rejected(PhoneTooShort)
    ensures |f.phone| >= 10 && f.isRegister && f.password != f.confirmPassword ==> r == Rejected(PasswordMismatch)
    ensures |f.phone| >= 10 && (!f.isRegister || f.password == f.confirmPassword) && |f.password| < 6 ==> r == Rejected(PasswordTooShort)
    ensures r.CallAuth? ==> r.creds == Credentials(f.name, f.phone, f.password, f.isRegister)
  {
    if |f.phone| < 10 then Rejected(PhoneTooShort)
    else if f.isRegister && f.password != f.confirmPassword then Rejected(PasswordMismatch)
    else if |f.password| < 6 then Rejected(PasswordTooShort)
    else CallAuth(Credentials(f.name, f.phone, f.password, f.isRegister))
  }

  /** When logging in, the confirmation field plays no part. */
  lemma LoginIgnoresConfirmation(f: Form, confirm: string)
    requires !f.isRegister
    ensures Submit(f.(confirmPassword := confirm)) == Submit(f)
  {
  }

  /** A phone typed through the sanitiser passes the first check exactly
      when ten digits were typed. */
  lemma SanitizedPhoneCheck(f: Form, raw: string)
    requires f.phone == SanitizePhone(raw)
    ensures Submit(f) != Rejected(PhoneTooShort) <==> |DigitsOnly(raw)| >= 10
  {
  }

  /** The message a rejection shows. */
  function Message(why: Rejection, lang: Language, t: Texts): (m: string)
    ensures why == PasswordMismatch ==> m == t.passwordMismatch
    ensures lang != En && why == PhoneTooShort ==> m == t.phone
    ensures lang != En && why == PasswordTooShort ==> m == t.password
    ensures lang == En && why == PhoneTooShort ==> m == "Please enter a valid 10-digit phone number"
    ensures lang == En && why == PasswordTooShort ==> m == "Password must be at least 6 characters"
  {
    match why
    case PhoneTooShort => if lang == En then "Please enter a valid 10-digit phone number" else t.phone
    case PasswordMismatch => t.passwordMismatch
    case PasswordTooShort => if lang == En then "Password must be at least 6 characters" else t.password
  }

  /** The error shown after a submission. `previous` is the error before it
      and `reply` what `onAuth` answered, consulted only when it was called:
      a rejection shows its message, a non-empty reply replaces the error,
      and otherwise the error is left as it was. */
  function ErrorAfterSubmit(f: Form, lang: Language, t: Texts, previous: Option<string>, reply: Option<string>)
    : (e: Option<string>)
    ensures Submit(f).Rejected? ==> e == Some(Message(Submit(f).why, lang, t))
    ensures Submit(f).CallAuth? && reply.Some? && reply.value != "" ==> e == reply
    ensures Submit(f).CallAuth? && (reply.None? || reply.value == "") ==> e == previous
  {
    match Submit(f)
    case Rejected(why) => Some(Message(why, lang, t))
    case CallAuth(_) => if reply.Some? && reply.value != "" then reply else previous
  }
}
