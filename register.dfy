/** The registration page (frontend/src/pages/Register.tsx): typing and pasting into the six
 *  code cells, the e-mail step with its minimum three-second wait, and the checks made
 *  before the account is created. The API calls are given as their outcomes. */
module Register {
  import opened Common
  import opened OtpCells

  datatype Step = EmailStep | OtpStep

  const MINIMUM_LOAD_TIME := 3000
  const MIN_PASSWORD := 8

  const INVALID_EMAIL := "Please enter a valid email address."
  const NAME_MISSING := "Please enter your full name"
  const OTP_INCOMPLETE := "Please enter the complete 6-digit OTP"
  const PASSWORD_MISMATCH := "Passwords do not match"
  const PASSWORD_SHORT := "Password must be at least 8 characters long"

  const STEP_KEY := "register-step"
  const EMAIL_KEY := "register-email"
  const OTP_KEY := "register-otp"

  // ---------------------------------------------------------------- typing into a cell

  /** `handleOtpChange` accepts a value of at most one UTF-16 unit made of digits only. */
  predicate ChangeAccepted(value: string)
  {
    Utf16Length(value) <= 1 && AllDigits(value)
  }

  /** The accepted values are exactly the values a cell may hold. */
  lemma AcceptedValuesAreCells(value: string)
    ensures ChangeAccepted(value) <==> Cell(value)
  {
    if |value| == 1 {
      assert Utf16Length(value) == Utf16Length(value[1..]) + (if value[0] as int > 0xFFFF then 2 else 1);
    }
  }

  /** The code after `handleOtpChange(index, value)`. */
  function Changed(code: seq<string>, index: nat, value: string): seq<string>
    requires index < |code|
  {
    if ChangeAccepted(value) then code[index := value] else code
  }

  /** Only the edited cell can change; a rejected value changes nothing; the cells stay valid. */
  lemma ChangeMeaning(code: seq<string>, index: nat, value: string)
    requires Cells(code) && index < LENGTH
    ensures Cells(Changed(code, index, value))
    ensures forall j :: 0 <= j < LENGTH && j != index ==> Changed(code, index, value)[j] == code[j]
    ensures Changed(code, index, value)[index] == if Cell(value) then value else code[index]
  {
    AcceptedValuesAreCells(value);
  }

  /** The cell focused after typing: the next one, when a digit was typed before the last. */
  function ChangeFocus(index: nat, value: string): (r: Option<nat>)
    ensures r.Some? ==> r.value == index + 1 < LENGTH && value != []
  {
    if ChangeAccepted(value) && value != [] && index < 5 then Some(index + 1) else None
  }

  // ---------------------------------------------------------------- pasting

  /** The code after `handleOtpPaste` at cell `index`: with six or more digits the first six
   *  fill every cell; with fewer, they fill the cells from `index` on as far as they reach;
   *  with none, nothing changes. */
  function Pasted(code: seq<string>, index: nat, text: string): (r: seq<string>)
    requires |code| == LENGTH && index < LENGTH
    ensures |r| == LENGTH
  {
    var digits := KeepDigits(text);
    if |digits| >= LENGTH then seq(LENGTH, j requires 0 <= j < LENGTH => [digits[j]])
    else if |digits| > 0 then
      seq(LENGTH, j requires 0 <= j < LENGTH => if index <= j < index + |digits| then [digits[j - index]] else code[j])
    else code
  }

  /** A paste keeps the cells valid, and six or more digits make the joined code exactly the
   *  first six of them. */
  lemma PasteMeaning(code: seq<string>, index: nat, text: string)
    requires Cells(code) && index < LENGTH
    ensures Cells(Pasted(code, index, text))
    ensures |KeepDigits(text)| >= LENGTH ==> Joined(Pasted(code, index, text)) == KeepDigits(text)[..LENGTH]
    ensures KeepDigits(text) == [] ==> Pasted(code, index, text) == code
  {
    var digits := KeepDigits(text);
    var r := Pasted(code, index, text);
    if |digits| >= LENGTH {
      JoinedSingletons(digits[..LENGTH]);
      assert r == seq(LENGTH, j requires 0 <= j < LENGTH => [digits[..LENGTH][j]]);
    }
  }

  /** Fewer than six digits are written from the cell pasted into, as far as the cells go. */
  lemma PastedCells(code: seq<string>, index: nat, text: string, data: string)
    requires |code| == LENGTH && index < LENGTH
    requires 0 < |KeepDigits(text)| < LENGTH
    requires data == if |KeepDigits(text)| < LENGTH - index then KeepDigits(text) else KeepDigits(text)[..LENGTH - index]
    ensures forall j :: 0 <= j < LENGTH ==>
      Pasted(code, index, text)[j] == if index <= j < index + |data| then [data[j - index]] else code[j]
  {
  }

  /** Pasting six digits or more completes the code, whatever it held before. */
  lemma PasteCompletes(code: seq<string>, index: nat, text: string)
    requires Cells(code) && index < LENGTH
    requires |KeepDigits(text)| >= LENGTH
    ensures Utf16Length(Joined(Pasted(code, index, text))) == LENGTH
  {
    PasteMeaning(code, index, text);
    DigitsUtf16Length(Joined(Pasted(code, index, text)));
  }

  /** The cell focused after a paste: none when the text holds no digit, otherwise always one
   *  of the six cells, the one after the last written cell when there is one. */
  function PasteFocus(index: nat, text: string): (r: Option<nat>)
    requires index < LENGTH
    ensures r.None? <==> KeepDigits(text) == []
    ensures r.Some? ==> r.value < LENGTH
    ensures 0 < |KeepDigits(text)| < LENGTH - index ==> r == Some(index + |KeepDigits(text)|)
  {
    var digits := KeepDigits(text);
    if |digits| >= LENGTH then Some(if |digits| - 1 < 5 then |digits| - 1 else 5)
    else if |digits| > 0 then
      var written := if |digits| < LENGTH - index then |digits| else LENGTH - index;
      Some(if index + written < 5 then index + written else 5)
    else None
  }

  // ---------------------------------------------------------------- the e-mail step

  /** `handleSendOtp` refuses an empty address or one without `@` before calling the API. */
  function SendOtpError(email: string): (r: Option<string>)
    ensures r.None? <==> email != [] && '@' in email
    ensures r.Some? ==> r.value == INVALID_EMAIL
  {
    if email == [] || '@' !in email then Some(INVALID_EMAIL) else None
  }

  /** The wait added by `sendOtp` after the API answered `elapsed` ms after the start. */
  function Wait(isFromResend: bool, elapsed: int): (ms: int)
    ensures ms >= 0
    ensures isFromResend ==> ms == 0
    ensures !isFromResend && elapsed < MINIMUM_LOAD_TIME ==> elapsed + ms == MINIMUM_LOAD_TIME
    ensures elapsed >= MINIMUM_LOAD_TIME ==> ms == 0
  {
    if isFromResend then 0
    else if MINIMUM_LOAD_TIME - elapsed > 0 then MINIMUM_LOAD_TIME - elapsed else 0
  }

  /** The first send never updates the page sooner than three seconds after it started. */
  lemma FirstSendTakesThreeSeconds(elapsed: int)
    requires elapsed >= 0
    ensures elapsed + Wait(false, elapsed) >= MINIMUM_LOAD_TIME
    ensures elapsed + Wait(false, elapsed) == if elapsed > MINIMUM_LOAD_TIME then elapsed else MINIMUM_LOAD_TIME
  {
  }

  // ---------------------------------------------------------------- creating the account

  /** `handleVerifyOtp`'s checks, in order: a name that is not blank, a complete code, equal
   *  passwords, a password of at least eight UTF-16 units. */
  function VerifyOtpError(name: string, code: seq<string>, password: string, confirm: string): (r: Option<string>)
    ensures r.None? <==> JsTrim(name) != [] && Utf16Length(Joined(code)) == LENGTH
                         && password == confirm && Utf16Length(password) >= MIN_PASSWORD
    ensures r == Some(NAME_MISSING) <==> JsTrim(name) == []
    ensures r == Some(OTP_INCOMPLETE) <==> JsTrim(name) != [] && Utf16Length(Joined(code)) != LENGTH
    ensures r == Some(PASSWORD_MISMATCH) <==>
      JsTrim(name) != [] && Utf16Length(Joined(code)) == LENGTH && password != confirm
    ensures r == Some(PASSWORD_SHORT) <==>
      JsTrim(name) != [] && Utf16Length(Joined(code)) == LENGTH && password == confirm
      && Utf16Length(password) < MIN_PASSWORD
  {
    if Utf16Length(JsTrim(name)) == 0 then Some(NAME_MISSING)
    else if Utf16Length(Joined(code)) != LENGTH then Some(OTP_INCOMPLETE)
    else if password != confirm then Some(PASSWORD_MISMATCH)
    else if Utf16Length(password) < MIN_PASSWORD then Some(PASSWORD_SHORT)
    else None
  }

  /** With valid cells, the code check passes exactly when every cell is filled. */
  lemma CodeCheckIsAllFilled(name: string, code: seq<string>, password: string, confirm: string)
    requires Cells(code) && JsTrim(name) != []
    ensures VerifyOtpError(name, code, password, confirm) != Some(OTP_INCOMPLETE)
        <==> forall i :: 0 <= i < LENGTH ==> code[i] != []
  {
    CompleteIffAllFilled(code);
  }

  /** The `for` loop of the paste handler: the pasted digits overwrite the cells from `index`
   *  on, one digit per cell, and no other cell changes. */
  method WriteFrom(cells: array<string>, index: nat, data: string)
    requires cells.Length == LENGTH && index + |data| <= LENGTH
    modifies cells
    ensures forall j :: 0 <= j < LENGTH ==>
      cells[j] == if index <= j < index + |data| then [data[j - index]] else old(cells[j])
  {
    for i := 0 to |data|
      invariant forall j :: 0 <= j < LENGTH ==>
        cells[j] == if index <= j < index + i then [data[j - index]] else old(cells[j])
    {
      if index + i < LENGTH {
        cells[index + i] := [data[i]];
      }
    }
  }

  /** The registration page: its step, the address, the six cells and the page's entries in
   *  the browser's local storage. */
  class RegisterPage {
    var step: Step
    var email: string
    var code: seq<string>
    var storage: map<string, string>

    predicate Valid()
      reads this
    {
      Cells(code)
    }

    constructor ()
      ensures Valid()
      ensures step == EmailStep && email == [] && code == Blanks() && storage == map[]
    {
      step := EmailStep;
      email := [];
      code := Blanks();
      storage := map[];
    }

    /** A copy of the cells to edit (`[...otp]`). */
    method CopyCells() returns (a: array<string>)
      requires Valid()
      ensures fresh(a) && a[..] == code
    {
      a := new string[LENGTH];
      for i := 0 to LENGTH
        invariant a[..i] == code[..i]
      {
        a[i] := code[i];
      }
    }

    method OtpChange(index: nat, value: string) returns (focus: Option<nat>)
      requires Valid() && index < LENGTH
      modifies this
      ensures Valid()
      ensures code == Changed(old(code), index, value) && focus == ChangeFocus(index, value)
      ensures step == old(step) && email == old(email) && storage == old(storage)
    {
      ChangeMeaning(code, index, value);
      focus := None;
      if Utf16Length(value) > 1 || !AllDigits(value) {
        return;
      }
      var cells := CopyCells();
      cells[index] := value;
      code := cells[..];
      if value != [] && index < 5 {
        focus := Some(index + 1);
      }
    }

    method OtpPaste(index: nat, text: string) returns (focus: Option<nat>)
      requires Valid() && index < LENGTH
      modifies this
      ensures Valid()
      ensures code == Pasted(old(code), index, text) && focus == PasteFocus(index, text)
      ensures step == old(step) && email == old(email) && storage == old(storage)
    {
      PasteMeaning(code, index, text);
      var digits := KeepDigits(text);
      focus := None;
      if |digits| >= LENGTH {
        code := seq(LENGTH, j requires 0 <= j < LENGTH => [digits[j]]);
        focus := Some(if |digits| - 1 < 5 then |digits| - 1 else 5);
      } else if |digits| > 0 {
        var cells := CopyCells();
        var available := LENGTH - index;
        var data := if |digits| < available then digits else digits[..available];
        WriteFrom(cells, index, data);
        PastedCells(code, index, text, data);
        assert cells[..] == Pasted(code, index, text) by {
          forall j | 0 <= j < LENGTH
            ensures cells[..][j] == Pasted(code, index, text)[j]
          {
          }
        }
        code := cells[..];
        focus := Some(if index + |data| < 5 then index + |data| else 5);
      }
    }

    /** `sendOtp`: `registered` is the API's answer and `elapsed` the ms it took; the result
     *  is the added wait. On success the code step opens with empty cells and the stored
     *  address is removed. */
    method SendOtp(isFromResend: bool, registered: bool, elapsed: int) returns (waited: int)
      requires Valid()
      modifies this
      ensures Valid()
      ensures waited == Wait(isFromResend, elapsed)
      ensures registered ==> step == OtpStep && code == Blanks() && storage == old(storage) - {EMAIL_KEY}
      ensures !registered ==> step == old(step) && code == old(code) && storage == old(storage)
      ensures email == old(email)
    {
      waited := 0;
      if !isFromResend {
        var remaining := MINIMUM_LOAD_TIME - elapsed;
        waited := if remaining > 0 then remaining else 0;
      }
      if registered {
        step := OtpStep;
        code := Blanks();
        storage := storage - {EMAIL_KEY};
      }
    }

    /** `handleSendOtp`: the API is called only for an address with `@`. */
    method HandleSendOtp(registered: bool, elapsed: int) returns (error: Option<string>, called: bool)
      requires Valid()
      modifies this
      ensures Valid()
      ensures error == SendOtpError(old(email)) && called == error.None?
      ensures called && registered ==> step == OtpStep && code == Blanks() && storage == old(storage) - {EMAIL_KEY}
      ensures !(called && registered) ==> step == old(step) && code == old(code) && storage == old(storage)
      ensures email == old(email)
    {
      error := SendOtpError(email);
      called := false;
      if error.Some? {
        return;
      }
      called := true;
      var _ := SendOtp(false, registered, elapsed);
    }

    /** `handleVerifyOtp`: `created` is the API's answer; the three stored entries are
     *  removed once the account exists. */
    method HandleVerifyOtp(name: string, password: string, confirm: string, created: bool)
      returns (error: Option<string>, called: bool)
      requires Valid()
      modifies this
      ensures Valid()
      ensures error == VerifyOtpError(name, code, password, confirm) && called == error.None?
      ensures called && created ==> storage == old(storage) - {STEP_KEY, EMAIL_KEY, OTP_KEY}
      ensures !(called && created) ==> storage == old(storage)
      ensures step == old(step) && email == old(email) && code == old(code)
    {
      error := VerifyOtpError(name, code, password, confirm);
      called := error.None?;
      if called && created {
        storage := storage - {STEP_KEY, EMAIL_KEY, OTP_KEY};
      }
    }
  }

  /** Right after a successful send the cells are empty, so creating the account is refused
   *  for an incomplete code until six digits are typed or pasted. */
  lemma FreshCodeIsIncomplete(name: string, password: string, confirm: string)
    requires JsTrim(name) != []
    ensures VerifyOtpError(name, Blanks(), password, confirm) == Some(OTP_INCOMPLETE)
  {
    CompleteIffAllFilled(Blanks());
    assert Blanks()[0] == [];
  }
}
