/** The six one-character code inputs shared by the registration page and the password
 *  reset page: each cell holds nothing or one ASCII digit, and the code sent to the
 *  backend is the cells joined with no separator. */
module OtpCells {
  import opened Common

  const LENGTH := 6

  /** What an input cell may hold once a handler has accepted it. */
  predicate Cell(s: string)
  {
    s == [] || (|s| == 1 && IsDigit(s[0]))
  }

  predicate Cells(code: seq<string>)
  {
    |code| == LENGTH && forall i :: 0 <= i < |code| ==> Cell(code[i])
  }

  /** `['', '', '', '', '', '']`. */
  function Blanks(): (r: seq<string>)
    ensures Cells(r)
    ensures forall i :: 0 <= i < |r| ==> r[i] == []
  {
    seq(LENGTH, _ => [])
  }

  /** The number of non-empty cells. */
  function Filled(code: seq<string>): nat
  {
    if code == [] then 0 else (if code[0] != [] then 1 else 0) + Filled(code[1..])
  }

  /** `code.join('')`. */
  function Joined(code: seq<string>): string
  {
    Join(code, [])
  }

  /** One cell per character joins back to the string. */
  lemma {:induction false} JoinedSingletons(s: string)
    ensures Joined(seq(|s|, j requires 0 <= j < |s| => [s[j]])) == s
  {
    if |s| > 1 {
      JoinedSingletons(s[1..]);
      var cells := seq(|s|, j requires 0 <= j < |s| => [s[j]]);
      assert cells[1..] == seq(|s[1..]|, j requires 0 <= j < |s[1..]| => [s[1..][j]]);
      assert s == [s[0]] + s[1..];
    }
  }

  /** A string of ASCII digits has one UTF-16 unit per character. */
  lemma {:induction false} DigitsUtf16Length(s: string)
    requires AllDigits(s)
    ensures Utf16Length(s) == |s|
  {
    if s != [] {
      DigitsUtf16Length(s[1..]);
    }
  }

  /** Joining cells gives a string of digits with one character per filled cell. */
  lemma {:induction false} JoinedCells(code: seq<string>)
    requires forall i :: 0 <= i < |code| ==> Cell(code[i])
    ensures AllDigits(Joined(code))
    ensures |Joined(code)| == Utf16Length(Joined(code)) == Filled(code)
  {
    if |code| == 1 {
      assert Filled(code[1..]) == 0;
    } else if |code| > 1 {
      JoinedCells(code[1..]);
      var rest := Joined(code[1..]);
      assert Joined(code) == code[0] + rest;
      assert forall k :: 0 <= k < |code[0]| ==> IsDigit(Joined(code)[k]);
      assert forall k :: |code[0]| <= k < |Joined(code)| ==> Joined(code)[k] == rest[k - |code[0]|];
    }
    DigitsUtf16Length(Joined(code));
  }

  /** Every cell is filled exactly when the filled count is the number of cells. */
  lemma {:induction false} FilledAll(code: seq<string>)
    ensures Filled(code) <= |code|
    ensures Filled(code) == |code| <==> forall i :: 0 <= i < |code| ==> code[i] != []
  {
    if code != [] {
      FilledAll(code[1..]);
      assert forall i :: 1 <= i < |code| ==> code[i] == code[1..][i - 1];
    }
  }

  /** The joined code has six units exactly when no cell is empty; it is then six digits. */
  lemma CompleteIffAllFilled(code: seq<string>)
    requires Cells(code)
    ensures Utf16Length(Joined(code)) == LENGTH <==> forall i :: 0 <= i < LENGTH ==> code[i] != []
    ensures Utf16Length(Joined(code)) == LENGTH ==> |Joined(code)| == LENGTH && AllDigits(Joined(code))
  {
    JoinedCells(code);
    FilledAll(code);
  }
}
