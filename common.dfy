/** Shared value types and the string operations that the Python backend and the
 *  TypeScript frontend use: character classes, trimming, substring search,
 *  splitting and decimal digits. Strings are sequences of Unicode scalar values. */
module Common {

  datatype Option<T> = None | Some(value: T)
  {
    function GetOr(default: T): T
    {
      if Some? then value else default
    }
  }

  /** The outcome of an endpoint: its value, or the status code and detail of the HTTP
   *  error it raises. */
  datatype Result<T> = Ok(value: T) | Err(status: nat, detail: string)

  // ---------------------------------------------------------------- characters

  predicate IsDigit(c: char)
  {
    '0' <= c <= '9'
  }

  predicate AllDigits(s: string)
  {
    forall i :: 0 <= i < |s| ==> IsDigit(s[i])
  }

  /** The characters JavaScript's `trim` and `\s` treat as white space or line terminators. */
  predicate JsIsSpace(c: char)
  {
    ('\t' <= c <= '\r') || c == ' ' || c == '\U{00A0}' || c == '\U{1680}'
    || ('\U{2000}' <= c <= '\U{200A}') || c == '\U{2028}' || c == '\U{2029}'
    || c == '\U{202F}' || c == '\U{205F}' || c == '\U{3000}' || c == '\U{FEFF}'
  }

  /** The characters JavaScript's `.` does not match (line terminators). */
  predicate JsIsLineTerminator(c: char)
  {
    c == '\n' || c == '\r' || c == '\U{2028}' || c == '\U{2029}'
  }

  /** The characters Python's `str.isspace`, `str.strip()` and `re`'s `\s` treat as white space. */
  predicate PyIsSpace(c: char)
  {
    ('\t' <= c <= '\r') || ('\U{001C}' <= c <= '\U{001F}') || c == ' '
    || c == '\U{0085}' || c == '\U{00A0}' || c == '\U{1680}' || ('\U{2000}' <= c <= '\U{200A}')
    || c == '\U{2028}' || c == '\U{2029}' || c == '\U{202F}' || c == '\U{205F}' || c == '\U{3000}'
  }

  /** Lower-casing of the ASCII letters; every other character is kept. */
  function AsciiLower(c: char): char
  {
    if 'A' <= c <= 'Z' then (c as int + 32) as char else c
  }

  /** Upper-casing of the ASCII letters; every other character is kept. */
  function AsciiUpper(c: char): char
  {
    if 'a' <= c <= 'z' then (c as int - 32) as char else c
  }

  function Lower(s: string): (r: string)
    ensures |r| == |s|
    ensures forall i :: 0 <= i < |s| ==> r[i] == AsciiLower(s[i])
  {
    if s == [] then [] else [AsciiLower(s[0])] + Lower(s[1..])
  }

  // ---------------------------------------------------------------- trimming

  /** Drops white space (per `isSpace`) at both ends, as `trim()` / `strip()` do. */
  function TrimLeft(s: string, isSpace: char -> bool): (r: string)
    ensures |r| <= |s| && r == s[|s| - |r|..]
    ensures r == [] || !isSpace(r[0])
    ensures forall i :: 0 <= i < |s| - |r| ==> isSpace(s[i])
  {
    if s == [] || !isSpace(s[0]) then s else TrimLeft(s[1..], isSpace)
  }

  function TrimRight(s: string, isSpace: char -> bool): (r: string)
    ensures |r| <= |s| && r == s[..|r|]
    ensures r == [] || !isSpace(r[|r| - 1])
    ensures forall i :: |r| <= i < |s| ==> isSpace(s[i])
  {
    if s == [] || !isSpace(s[|s| - 1]) then s else TrimRight(s[..|s| - 1], isSpace)
  }

  function Trim(s: string, isSpace: char -> bool): string
  {
    TrimRight(TrimLeft(s, isSpace), isSpace)
  }

  function JsTrim(s: string): string
  {
    Trim(s, JsIsSpace)
  }

  function PyStrip(s: string): string
  {
    Trim(s, PyIsSpace)
  }

  /** A string is blank when trimming leaves nothing. */
  lemma {:induction false} TrimEmptyIffAllSpace(s: string, isSpace: char -> bool)
    ensures Trim(s, isSpace) == [] <==> forall i :: 0 <= i < |s| ==> isSpace(s[i])
  {
    var l := TrimLeft(s, isSpace);
    if l == [] {
    } else {
      assert !isSpace(l[0]);
      assert l[0] == s[|s| - |l|];
      var r := TrimRight(l, isSpace);
      assert r != [];
    }
  }

  // ---------------------------------------------------------------- substrings

  predicate OccursAt(t: string, pat: string, i: int)
  {
    0 <= i && i + |pat| <= |t| && t[i..i + |pat|] == pat
  }

  /** The first position at or after `from` where `pat` occurs in `t`. */
  function FindFrom(t: string, pat: string, from: nat): (r: Option<nat>)
    requires from <= |t|
    ensures r.Some? ==> from <= r.value && OccursAt(t, pat, r.value)
    ensures r.Some? ==> forall j :: from <= j < r.value ==> !OccursAt(t, pat, j)
    ensures r.None? ==> forall j :: from <= j ==> !OccursAt(t, pat, j)
    decreases |t| - from
  {
    if OccursAt(t, pat, from) then Some(from)
    else if from == |t| then None
    else FindFrom(t, pat, from + 1)
  }

  function Find(t: string, pat: string): Option<nat>
  {
    FindFrom(t, pat, 0)
  }

  /** JavaScript `t.includes(pat)`, Python `pat in t`. */
  predicate Contains(t: string, pat: string)
  {
    Find(t, pat).Some?
  }

  lemma ContainsIff(t: string, pat: string)
    ensures Contains(t, pat) <==> exists i :: OccursAt(t, pat, i)
  {
  }

  lemma ContainsChar(t: string, c: char)
    ensures Contains(t, [c]) <==> c in t
  {
    if c in t {
      var i :| 0 <= i < |t| && t[i] == c;
      assert OccursAt(t, [c], i);
    }
    if Contains(t, [c]) {
      var i := Find(t, [c]).value;
      assert t[i..i + 1][0] == t[i];
    }
  }

  // ---------------------------------------------------------------- filtering and splitting

  /** JavaScript `s.replace(/\D/g, '')`: the digits of `s`, in order. */
  function KeepDigits(s: string): (r: string)
    ensures AllDigits(r)
    ensures |r| <= |s|
    ensures AllDigits(s) ==> r == s
  {
    if s == [] then [] else (if IsDigit(s[0]) then [s[0]] else []) + KeepDigits(s[1..])
  }

  /** JavaScript `s.split(sep)` for a one-character separator. */
  function Split(s: string, sep: char): (pieces: seq<string>)
    ensures |pieces| >= 1
    ensures forall k :: 0 <= k < |pieces| ==> sep !in pieces[k]
  {
    if s == [] then [[]]
    else
      var rest := Split(s[1..], sep);
      if s[0] == sep then [[]] + rest else [[s[0]] + rest[0]] + rest[1..]
  }

  /** JavaScript `pieces.join(sep)`. */
  function Join(pieces: seq<string>, sep: string): string
  {
    if pieces == [] then []
    else if |pieces| == 1 then pieces[0]
    else pieces[0] + sep + Join(pieces[1..], sep)
  }

  lemma {:induction false} JoinSplit(s: string, sep: char)
    ensures Join(Split(s, sep), [sep]) == s
  {
    if s != [] {
      JoinSplit(s[1..], sep);
      var rest := Split(s[1..], sep);
      if s[0] == sep {
        assert Split(s, sep) == [[]] + rest;
        if |rest| == 1 {
          assert Join([[]] + rest, [sep]) == [] + [sep] + rest[0];
        } else {
          assert ([[]] + rest)[1..] == rest;
        }
      } else {
        var pieces := [[s[0]] + rest[0]] + rest[1..];
        assert Split(s, sep) == pieces;
        if |rest| == 1 {
          assert Join(pieces, [sep]) == [s[0]] + rest[0];
        } else {
          assert pieces[1..] == rest[1..];
          assert Join(rest, [sep]) == rest[0] + [sep] + Join(rest[1..], [sep]);
        }
      }
    }
  }

  function Count<T(==)>(s: seq<T>, x: T): nat
  {
    if s == [] then 0 else (if s[0] == x then 1 else 0) + Count(s[1..], x)
  }

  /** One more piece than there are separators. */
  lemma {:induction false} SplitCount(s: string, sep: char)
    ensures |Split(s, sep)| == Count(s, sep) + 1
  {
    if s != [] {
      SplitCount(s[1..], sep);
    }
  }

  /** The elements of `s` that differ from `x`, in order (JavaScript `filter(e => e !== x)`). */
  function Without<T(==)>(s: seq<T>, x: T): (r: seq<T>)
    ensures x !in r
    ensures forall i :: 0 <= i < |r| ==> r[i] in s && r[i] != x
    ensures forall i :: 0 <= i < |s| && s[i] != x ==> s[i] in r
    ensures |r| == |s| - Count(s, x)
  {
    if s == [] then [] else (if s[0] == x then [] else [s[0]]) + Without(s[1..], x)
  }

  /** Removing an absent element changes nothing. */
  lemma {:induction false} WithoutNone<T>(s: seq<T>, x: T)
    requires x !in s
    ensures Without(s, x) == s
  {
    if s != [] {
      WithoutNone(s[1..], x);
      assert s == [s[0]] + s[1..];
    }
  }

  /** Removing works piece by piece, so what stays keeps its order. */
  lemma {:induction false} WithoutAppend<T>(a: seq<T>, b: seq<T>, x: T)
    ensures Without(a + b, x) == Without(a, x) + Without(b, x)
  {
    if a != [] {
      assert (a + b)[1..] == a[1..] + b;
      WithoutAppend(a[1..], b, x);
    } else {
      assert a + b == b;
    }
  }

  /** The elements of `s` that `drop` does not pick, in order (JavaScript
   *  `s.filter(e => !drop(e))`). */
  function Reject<T>(s: seq<T>, drop: T -> bool): seq<T>
  {
    if s == [] then [] else (if drop(s[0]) then [] else [s[0]]) + Reject(s[1..], drop)
  }

  /** What stays is exactly what the predicate does not drop, and no more than the input. */
  lemma {:induction false} RejectMember<T>(s: seq<T>, drop: T -> bool)
    ensures forall x :: x in Reject(s, drop) <==> x in s && !drop(x)
    ensures |Reject(s, drop)| <= |s|
  {
    if s != [] {
      RejectMember(s[1..], drop);
      assert forall x :: x in s <==> x == s[0] || x in s[1..];
    }
  }

  lemma TailOfAppend<T>(a: seq<T>, b: seq<T>)
    requires a != []
    ensures (a + b)[0] == a[0] && (a + b)[1..] == a[1..] + b
  {
  }

  /** Filtering a concatenation filters each part, so what stays keeps its order. */
  lemma {:induction false} RejectAppend<T>(a: seq<T>, b: seq<T>, drop: T -> bool)
    ensures Reject(a + b, drop) == Reject(a, drop) + Reject(b, drop)
  {
    if a != [] {
      var t := a[1..];
      var head := if drop(a[0]) then [] else [a[0]];
      RejectAppend(t, b, drop);
      TailOfAppend(a, b);
      calc {
        Reject(a + b, drop);
        head + Reject(t + b, drop);
        head + (Reject(t, drop) + Reject(b, drop));
        (head + Reject(t, drop)) + Reject(b, drop);
        Reject(a, drop) + Reject(b, drop);
      }
    } else {
      assert a + b == b;
    }
  }

  /** Nothing picked, nothing removed. */
  lemma {:induction false} RejectNone<T>(s: seq<T>, drop: T -> bool)
    requires forall x :: x in s ==> !drop(x)
    ensures Reject(s, drop) == s
  {
    if s != [] {
      RejectNone(s[1..], drop);
    }
  }

  lemma AppendAssoc<T>(a: seq<T>, b: seq<T>, c: seq<T>)
    ensures a + b + c == a + (b + c)
  {
  }

  /** The concatenation of the parts, in order. */
  function Flatten<T>(parts: seq<seq<T>>): seq<T>
  {
    if parts == [] then [] else Flatten(parts[..|parts| - 1]) + parts[|parts| - 1]
  }

  lemma {:induction false} FlattenMember<T>(parts: seq<seq<T>>, x: T)
    ensures x in Flatten(parts) <==> exists i :: 0 <= i < |parts| && x in parts[i]
  {
    if parts != [] {
      var init := parts[..|parts| - 1];
      FlattenMember(init, x);
      if x in Flatten(init) {
        var i :| 0 <= i < |init| && x in init[i];
        assert parts[i] == init[i];
      }
      if exists i :: 0 <= i < |parts| && x in parts[i] {
        var i :| 0 <= i < |parts| && x in parts[i];
        if i < |init| {
          assert init[i] == parts[i];
        }
      }
    }
  }

  /** Removal of the first occurrence (Python `list.remove`). */
  function RemoveFirst<T(==)>(s: seq<T>, x: T): (r: seq<T>)
    requires x in s
    ensures |r| == |s| - 1
    ensures multiset(r) == multiset(s) - multiset{x}
  {
    assert s == [s[0]] + s[1..];
    if s[0] == x then s[1..] else [s[0]] + RemoveFirst(s[1..], x)
  }

  predicate NoDuplicates<T(==)>(s: seq<T>)
  {
    forall i, j :: 0 <= i < j < |s| ==> s[i] != s[j]
  }

  /** The distinct elements of `s` in order of first occurrence. */
  function Dedup<T(==)>(s: seq<T>): (r: seq<T>)
    ensures NoDuplicates(r)
    ensures forall i :: 0 <= i < |r| ==> r[i] in s
    ensures forall i :: 0 <= i < |s| ==> s[i] in r
    ensures |r| <= |s|
  {
    if s == [] then []
    else
      var rest := Dedup(s[..|s| - 1]);
      if s[|s| - 1] in rest then rest else rest + [s[|s| - 1]]
  }

  // ---------------------------------------------------------------- decimal numbers

  function DigitChar(d: nat): char
    requires d < 10
  {
    ('0' as int + d) as char
  }

  /** Python `str(n)` and JavaScript `${n}` for a natural number. */
  function NatToString(n: nat): (r: string)
    ensures |r| >= 1 && AllDigits(r)
    decreases n
  {
    if n < 10 then [DigitChar(n)] else NatToString(n / 10) + [DigitChar(n % 10)]
  }

  /** The value of a string of decimal digits (JavaScript `Number`, Python `int`). */
  function DigitsValue(s: string): nat
    requires AllDigits(s)
  {
    if s == [] then 0 else 10 * DigitsValue(s[..|s| - 1]) + (s[|s| - 1] as int - '0' as int)
  }

  lemma {:induction false} DigitsValueOfNatToString(n: nat)
    ensures DigitsValue(NatToString(n)) == n
    decreases n
  {
    if n >= 10 {
      DigitsValueOfNatToString(n / 10);
      var s := NatToString(n);
      assert s[..|s| - 1] == NatToString(n / 10);
    }
  }

  function Pow10(k: nat): (r: nat)
    ensures r >= 1
  {
    if k == 0 then 1 else 10 * Pow10(k - 1)
  }

  /** A number in [10^(k-1), 10^k) is written with exactly k digits, the first not `0`. */
  lemma {:induction false} NatToStringLength(n: nat, k: nat)
    requires k >= 1 && Pow10(k - 1) <= n < Pow10(k)
    ensures |NatToString(n)| == k
    ensures k > 1 ==> NatToString(n)[0] != '0'
    decreases k
  {
    if k == 1 {
      assert n < 10;
    } else {
      assert n >= 10;
      assert Pow10(k - 2) <= n / 10 < Pow10(k - 1);
      NatToStringLength(n / 10, k - 1);
      if k == 2 {
        assert 1 <= n / 10 < 10;
      }
    }
  }

  // ---------------------------------------------------------------- JavaScript string length

  /** `s.length` in JavaScript: UTF-16 code units, two for characters beyond U+FFFF. */
  function Utf16Length(s: string): (n: nat)
    ensures |s| <= n <= 2 * |s|
  {
    if s == [] then 0 else (if s[0] as int > 0xFFFF then 2 else 1) + Utf16Length(s[1..])
  }

  lemma {:induction false} Utf16LengthAppend(a: string, b: string)
    ensures Utf16Length(a + b) == Utf16Length(a) + Utf16Length(b)
  {
    if a != [] {
      var ab := a + b;
      assert ab != [] && ab[1..] == a[1..] + b && ab[0] == a[0];
      Utf16LengthAppend(a[1..], b);
      assert Utf16Length(ab) == (if ab[0] as int > 0xFFFF then 2 else 1) + Utf16Length(ab[1..]);
    } else {
      assert a + b == b;
    }
  }
}
