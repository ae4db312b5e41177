/** The password reset page (frontend/src/pages/ForgotPassword.tsx): requesting a code,
 *  typing or pasting it into the six cells, and setting the new password. The step is the
 *  text kept in the browser's local storage, so any string may come back from it. */
module ForgotPassword {
  import opened Common
  import opened OtpCells

  const EMAIL := "email"
  const VERIFY := "verify"
  const RESET := "reset"
  const SUCCESS := "success"

  const SEND_DELAY := 3000
  const MIN_PASSWORD := 8

  const CODE_INCOMPLETE := "Please enter the complete 6-digit code."
  const PASSWORD_MISMATCH := "Passwords do not match."
  const PASSWORD_SHORT := "Password must be at least 8 characters long."

  const STEP_KEY := "forgot_password_step"
  const EMAIL_KEY := "forgot_password_email"

  /** `value.slice(-1)`: the last character, or nothing. */
  function LastChar(value: string): (r: string)
    ensures |r| <= 1
    ensures value != [] ==> r == [value[|value| - 1]]
  {
    if value == [] then [] else value[|value| - 1..]
  }

  /** The code after `handleOtpChange(index, value)`: a value of digits only puts its last
   *  digit (or nothing) in the cell; any other value is ignored. */
  function Changed(code: seq<string>, index: nat, value: string): seq<string>
    requires index < |code|
  {
    if AllDigits(value) then code[index := LastChar(value)] else code
  }

  /** Typing keeps the cells valid, changes at most the edited cell, and keeps the last digit
   *  typed, so a cell that held a digit is overwritten by the new one. */
  lemma ChangeMeaning(code: seq<string>, index: nat, value: string)
    requires Cells(code) && index < LENGTH
    ensures Cells(Changed(code, index, value))
    ensures forall j :: 0 <= j < LENGTH && j != index ==> Changed(code, index, value)[j] == code[j]
    ensures !AllDigits(value) ==> Changed(code, index, value) == code
    ensures AllDigits(value) && value != [] ==> Changed(code, index, value)[index] == [value[|value| - 1]]
  {
  }

  /** The focus moves to the next cell when a digit was typed before the last cell. */
  function ChangeFocus(index: nat, value: string): (r: Option<nat>)
    ensures r.Some? ==> r.value == index + 1 < LENGTH && value != [] && AllDigits(value)
  {
    if AllDigits(value) && value != [] && index < 5 then Some(index + 1) else None
  }

  /** The digits of the pasted text, at most six. */
  function PastedDigits(text: string): (r: string)
    ensures AllDigits(r) && |r| <= LENGTH
  {
    var digits := KeepDigits(text);
    if |digits| > LENGTH then digits[..LENGTH] else digits
  }

  /** The code after `handleOtpPaste`: replaced only when six digits are left. */
  function Pasted(code: seq<string>, text: string): (r: seq<string>)
  {
    var digits := PastedDigits(text);
    if |digits| == LENGTH then seq(LENGTH, j requires 0 <= j < LENGTH => [digits[j]]) else code
  }

  /** With six or more digits in the text the code becomes its first six digits; with fewer,
   *  nothing changes, wherever the text was pasted. */
  lemma PasteMeaning(code: seq<string>, text: string)
    requires Cells(code)
    ensures Cells(Pasted(code, text))
    ensures |KeepDigits(text)| >= LENGTH ==> Joined(Pasted(code, text)) == KeepDigits(text)[..LENGTH]
    ensures |KeepDigits(text)| < LENGTH ==> Pasted(code, text) == code
  {
    var digits := PastedDigits(text);
    if |digits| == LENGTH {
      JoinedSingletons(digits);
      assert digits == KeepDigits(text)[..LENGTH];
    }
  }

  /** `handleVerifyCode`'s checks, in order: a complete code, equal passwords, a password of at
   *  least eight UTF-16 units. */
  function VerifyCodeError(code: seq<string>, password: string, confirm: string): (r: Option<string>)
    ensures r.None? <==> Utf16Length(Joined(code)) == LENGTH && password == confirm
                         && Utf16Length(password) >= MIN_PASSWORD
    ensures r == Some(CODE_INCOMPLETE) <==> Utf16Length(Joined(code)) != LENGTH
    ensures r == Some(PASSWORD_MISMATCH) <==> Utf16Length(Joined(code)) == LENGTH && password != confirm
    ensures r == Some(PASSWORD_SHORT) <==>
      Utf16Length(Joined(code)) == LENGTH && password == confirm && Utf16Length(password) < MIN_PASSWORD
  {
    if Utf16Length(Joined(code)) != LENGTH then Some(CODE_INCOMPLETE)
    else if password != confirm then Some(PASSWORD_MISMATCH)
    else if Utf16Length(password) < MIN_PASSWORD then Some(PASSWORD_SHORT)
    else None
  }

  /** The code check passes exactly when every cell is filled, which is also when the submit
   *  button is enabled. */
  lemma CodeCheckIsAllFilled(code: seq<string>, password: string, confirm: string)
    requires Cells(code)
    ensures VerifyCodeError(code, password, confirm) != Some(CODE_INCOMPLETE)
        <==> forall i :: 0 <= i < LENGTH ==> code[i] != []
  {
    CompleteIffAllFilled(code);
  }

  /** `getStepProgress`: how many of the three progress dots are lit. */
  function StepProgress(step: string): (r: nat)
    ensures 1 <= r <= 3
    ensures r == 3 <==> step == SUCCESS
    ensures r == 2 <==> step == VERIFY || step == RESET
  {
    if step == EMAIL then 1
    else if step == VERIFY then 2
    else if step == RESET then 2
    else if step == SUCCESS then 3
    else 1
  }

  /** The page's steps light strictly more dots as the reset goes on, and an unknown stored
   *  step counts as the first. */
  lemma ProgressGrows(step: string)
    requires step !in {EMAIL, VERIFY, RESET, SUCCESS}
    ensures StepProgress(EMAIL) < StepProgress(VERIFY) < StepProgress(SUCCESS)
    ensures StepProgress(step) == StepProgress(EMAIL)
  {
  }

  /** The password reset page: its step, the six cells and its local storage entries. */
  class ForgotPasswordPage {
    var step: string
    var code: seq<string>
    var storage: map<string, string>

    predicate Valid()
      reads this
    {
      Cells(code)
    }

    /** The step comes back from local storage, or is `email`. */
    constructor (storage: map<string, string>)
      ensures Valid()
      ensures step == if STEP_KEY in storage && storage[STEP_KEY] != [] then storage[STEP_KEY] else EMAIL
      ensures code == Blanks() && this.storage == storage
    {
      step := if STEP_KEY in storage && storage[STEP_KEY] != [] then storage[STEP_KEY] else EMAIL;
      code := Blanks();
      this.storage := storage;
    }

    method OtpChange(index: nat, value: string) returns (focus: Option<nat>)
      requires Valid() && index < LENGTH
      modifies this
      ensures Valid()
      ensures code == Changed(old(code), index, value) && focus == ChangeFocus(index, value)
      ensures step == old(step) && storage == old(storage)
    {
      ChangeMeaning(code, index, value);
      focus := None;
      if !AllDigits(value) {
        return;
      }
      var cells := new string[LENGTH];
      for i := 0 to LENGTH
        modifies cells
        invariant cells[..i] == code[..i]
      {
        cells[i] := code[i];
      }
      cells[index] := LastChar(value);
      code := cells[..];
      if value != [] && index < 5 {
        focus := Some(index + 1);
      }
    }

    /** `handleOtpPaste`; the focus moves to the last cell when the code is replaced. */
    method OtpPaste(text: string) returns (focus: Option<nat>)
      requires Valid()
      modifies this
      ensures Valid()
      ensures code == Pasted(old(code), text)
      ensures focus.Some? <==> |KeepDigits(text)| >= LENGTH
      ensures focus.Some? ==> focus.value == LENGTH - 1
      ensures step == old(step) && storage == old(storage)
    {
      PasteMeaning(code, text);
      var digits := PastedDigits(text);
      focus := None;
      if |digits| == LENGTH {
        code := seq(LENGTH, j requires 0 <= j < LENGTH => [digits[j]]);
        focus := Some(5);
      }
    }

    /** `handleSendCode`: `sent` is whether the API call returned; the page then waits three
     *  seconds, moves to the code step and, for a resend only, empties the cells. */
    method SendCode(isResend: bool, sent: bool) returns (waited: nat)
      requires Valid()
      modifies this
      ensures Valid()
      ensures sent ==> waited == SEND_DELAY && step == VERIFY
                       && code == (if isResend then Blanks() else old(code))
      ensures !sent ==> waited == 0 && step == old(step) && code == old(code)
      ensures storage == old(storage)
    {
      waited := 0;
      if sent {
        waited := SEND_DELAY;
        step := VERIFY;
        if isResend {
          code := Blanks();
        }
      }
    }

    /** `handleVerifyCode`: `reset` is whether the API accepted the code; on success the
     *  page shows the success step and drops both stored entries. */
    method VerifyCode(password: string, confirm: string, reset: bool) returns (error: Option<string>, called: bool)
      requires Valid()
      modifies this
      ensures Valid()
      ensures error == VerifyCodeError(code, password, confirm) && called == error.None?
      ensures called && reset ==> step == SUCCESS && storage == old(storage) - {STEP_KEY, EMAIL_KEY}
      ensures !(called && reset) ==> step == old(step) && storage == old(storage)
      ensures code == old(code)
    {
      error := VerifyCodeError(code, password, confirm);
      called := error.None?;
      if called && reset {
        step := SUCCESS;
        storage := storage - {STEP_KEY, EMAIL_KEY};
      }
    }
  }
}
