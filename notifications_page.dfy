/** The activity page (frontend/src/components/NotificationsPage.tsx): how a notification's
 *  message is turned into a workspace name and a one-line summary by three regular
 *  expressions, and how the list reacts to deleting one entry or clearing all of them. */
module NotificationsPage {
  import opened Common
  import Records
  import Notifications

  // ---------------------------------------------------------------- the patterns

  const QUOTED_PREFIX := "Data updated in '"
  const ARROW := '\U{2192}'
  const DEFAULT_WORKSPACE := "Workspace"
  const NO_SCHEMA_CHANGE := "Data updated"
  const SCHEMA_PREFIX := "Schema updated: "

  /** The three expressions of `parseMessage`: `Data updated in '(.+?)'`,
   *  `\(\+(\d+)\s*\/\s*-(\d+)\)` and `keyword\s+(\d+)\s*→\s*(\d+)` for `rows` and `columns`. */
  datatype Pattern = Quoted | Counts | Arrow(keyword: string)

  /** The end of the longest run of ASCII digits from `i` (what a greedy `\d+` or `\d*` takes;
   *  the character after each run in these patterns is never a digit, so no shorter run can
   *  lead to a match). */
  function DigitRunEnd(msg: string, i: nat): (j: nat)
    requires i <= |msg|
    ensures i <= j <= |msg|
    ensures j == |msg| || !IsDigit(msg[j])
    decreases |msg| - i
  {
    if i < |msg| && IsDigit(msg[i]) then DigitRunEnd(msg, i + 1) else i
  }

  /** What that run passes over is all digits. */
  lemma {:induction false} DigitRunIsDigits(msg: string, i: nat)
    requires i <= |msg|
    ensures AllDigits(msg[i..DigitRunEnd(msg, i)])
    decreases |msg| - i
  {
    if i < |msg| && IsDigit(msg[i]) {
      var j := DigitRunEnd(msg, i + 1);
      DigitRunIsDigits(msg, i + 1);
      assert msg[i..j] == [msg[i]] + msg[i + 1..j];
    }
  }

  /** The end of the longest run of `\s` characters from `i`. */
  function SpaceRunEnd(msg: string, i: nat): (j: nat)
    requires i <= |msg|
    ensures i <= j <= |msg|
    ensures j == |msg| || !JsIsSpace(msg[j])
    decreases |msg| - i
  {
    if i < |msg| && JsIsSpace(msg[i]) then SpaceRunEnd(msg, i + 1) else i
  }

  /** What that run passes over is all white space. */
  lemma {:induction false} SpaceRunIsSpace(msg: string, i: nat)
    requires i <= |msg|
    ensures forall k :: i <= k < SpaceRunEnd(msg, i) ==> JsIsSpace(msg[k])
    decreases |msg| - i
  {
    if i < |msg| && JsIsSpace(msg[i]) {
      SpaceRunIsSpace(msg, i + 1);
    }
  }

  /** The lazy `(.+?)'` after the opening quote at `start - 1`, trying the closing quote at
   *  `j`, `j + 1`, ...: the first quote after at least one character, provided no line
   *  terminator comes before it. */
  function LazyClose(msg: string, start: nat, j: nat): (r: Option<nat>)
    requires start < j <= |msg|
    requires forall k :: start <= k < j - 1 ==> !JsIsLineTerminator(msg[k])
    ensures r.Some? ==> j <= r.value < |msg| && msg[r.value] == '\''
    ensures r.Some? ==> forall k :: start <= k < r.value ==> !JsIsLineTerminator(msg[k])
    ensures r.Some? ==> forall k :: j <= k < r.value ==> msg[k] != '\''
    decreases |msg| - j
  {
    if JsIsLineTerminator(msg[j - 1]) || j == |msg| then None
    else if msg[j] == '\'' then Some(j)
    else LazyClose(msg, start, j + 1)
  }

  /** Whether `lit` occurs at `i`. */
  predicate LiteralAt(msg: string, i: nat, lit: string)
  {
    i + |lit| <= |msg| && msg[i..i + |lit|] == lit
  }

  /** `Data updated in '(.+?)'` at `i`: the text up to the first closing quote. */
  function QuotedAt(msg: string, i: nat): (r: Option<(string, string)>)
    requires i <= |msg|
    ensures r.Some? ==> LiteralAt(msg, i, QUOTED_PREFIX) && r.value.0 != []
  {
    var s := i + |QUOTED_PREFIX|;
    if !LiteralAt(msg, i, QUOTED_PREFIX) || s == |msg| then None
    else match LazyClose(msg, s, s + 1)
      case None => None
      case Some(close) => Some((msg[s..close], []))
  }

  /** `\(\+(\d+)\s*\/\s*-(\d+)\)` at `i`: the added and the removed count. */
  function CountsAt(msg: string, i: nat): (r: Option<(string, string)>)
    requires i <= |msg|
    ensures r.Some? ==> LiteralAt(msg, i, "(+")
    ensures r.Some? ==> r.value.0 != [] && r.value.1 != [] && AllDigits(r.value.0) && AllDigits(r.value.1)
  {
    if !LiteralAt(msg, i, "(+") then None
    else
      var a := i + 2;
      var aEnd := DigitRunEnd(msg, a);
      var slash := SpaceRunEnd(msg, aEnd);
      if aEnd == a || slash == |msg| || msg[slash] != '/' then None
      else
        var minus := SpaceRunEnd(msg, slash + 1);
        if minus == |msg| || msg[minus] != '-' then None
        else
          var bEnd := DigitRunEnd(msg, minus + 1);
          if bEnd == minus + 1 || bEnd == |msg| || msg[bEnd] != ')' then None
          else
            DigitRunIsDigits(msg, a);
            DigitRunIsDigits(msg, minus + 1);
            Some((msg[a..aEnd], msg[minus + 1..bEnd]))
  }

  /** `keyword\s+(\d+)\s*→\s*(\d+)` at `i`: the count before and after. */
  function ArrowAt(keyword: string, msg: string, i: nat): (r: Option<(string, string)>)
    requires i <= |msg|
    ensures r.Some? ==> LiteralAt(msg, i, keyword) && ARROW in msg
    ensures r.Some? ==> r.value.0 != [] && r.value.1 != [] && AllDigits(r.value.0) && AllDigits(r.value.1)
  {
    if !LiteralAt(msg, i, keyword) then None
    else
      var x := SpaceRunEnd(msg, i + |keyword|);
      var xEnd := DigitRunEnd(msg, x);
      var arrow := SpaceRunEnd(msg, xEnd);
      if x == i + |keyword| || xEnd == x || arrow == |msg| || msg[arrow] != ARROW then None
      else
        var y := SpaceRunEnd(msg, arrow + 1);
        var yEnd := DigitRunEnd(msg, y);
        if yEnd == y then None
        else
          DigitRunIsDigits(msg, x);
          DigitRunIsDigits(msg, y);
          Some((msg[x..xEnd], msg[y..yEnd]))
  }

  /** The captures of a match of `p` that starts at `i`, if one does. For `Quoted` the second
   *  capture is empty. */
  function MatchAt(p: Pattern, msg: string, i: nat): (r: Option<(string, string)>)
    requires i <= |msg|
    ensures r.Some? && !p.Quoted? ==>
      r.value.0 != [] && r.value.1 != [] && AllDigits(r.value.0) && AllDigits(r.value.1)
  {
    match p
    case Quoted => QuotedAt(msg, i)
    case Counts => CountsAt(msg, i)
    case Arrow(keyword) => ArrowAt(keyword, msg, i)
  }

  /** Whether a match of `p` starts at each position of `msg`, the end included. */
  function Hits(p: Pattern, msg: string): (h: seq<bool>)
    ensures |h| == |msg| + 1
    ensures forall j :: 0 <= j <= |msg| ==> h[j] == MatchAt(p, msg, j).Some?
  {
    seq(|msg| + 1, j requires 0 <= j <= |msg| => MatchAt(p, msg, j).Some?)
  }

  /** The first position at `i` or later that holds a hit. */
  function FirstHit(hits: seq<bool>, i: nat): (r: Option<nat>)
    requires i <= |hits|
    ensures r.Some? ==> i <= r.value < |hits| && hits[r.value]
    decreases |hits| - i
  {
    if i == |hits| then None
    else if hits[i] then Some(i)
    else FirstHit(hits, i + 1)
  }

  /** Nothing is found iff no position from `i` on holds a hit. */
  lemma {:induction false} FirstHitNone(hits: seq<bool>, i: nat)
    requires i <= |hits|
    ensures FirstHit(hits, i).None? <==> forall j :: i <= j < |hits| ==> !hits[j]
    decreases |hits| - i
  {
    if i < |hits| && !hits[i] {
      FirstHitNone(hits, i + 1);
    }
  }

  /** No position before the one found holds a hit. */
  lemma {:induction false} FirstHitLeftmost(hits: seq<bool>, i: nat)
    requires i <= |hits|
    ensures FirstHit(hits, i).Some? ==> forall k :: i <= k < FirstHit(hits, i).value ==> !hits[k]
    decreases |hits| - i
  {
    if i < |hits| && !hits[i] {
      FirstHitLeftmost(hits, i + 1);
    }
  }

  /** Where the leftmost match of `p` at `i` or later starts. */
  function SearchFrom(p: Pattern, msg: string, i: nat): (r: Option<nat>)
    requires i <= |msg|
    ensures r.Some? ==> i <= r.value <= |msg| && MatchAt(p, msg, r.value).Some?
  {
    FirstHit(Hits(p, msg), i)
  }

  /** The search finds nothing iff no position from `i` on matches. */
  lemma SearchFromNone(p: Pattern, msg: string, i: nat)
    requires i <= |msg|
    ensures SearchFrom(p, msg, i).None? <==> forall j :: i <= j <= |msg| ==> MatchAt(p, msg, j).None?
  {
    FirstHitNone(Hits(p, msg), i);
  }

  /** No position before the one the search finds matches. */
  lemma SearchFromLeftmost(p: Pattern, msg: string, i: nat)
    requires i <= |msg|
    ensures SearchFrom(p, msg, i).Some? ==>
      forall k :: i <= k < SearchFrom(p, msg, i).value ==> MatchAt(p, msg, k).None?
  {
    FirstHitLeftmost(Hits(p, msg), i);
  }

  /** `msg.match(p)`: the captures of the leftmost match. */
  function First(p: Pattern, msg: string): (r: Option<(string, string)>)
    ensures r.None? <==> forall j :: 0 <= j <= |msg| ==> MatchAt(p, msg, j).None?
    ensures r.Some? && !p.Quoted? ==>
      r.value.0 != [] && r.value.1 != [] && AllDigits(r.value.0) && AllDigits(r.value.1)
  {
    SearchFromNone(p, msg, 0);
    match SearchFrom(p, msg, 0)
    case None => None
    case Some(j) => MatchAt(p, msg, j)
  }

  /** A match where the message starts is the one `match` returns. */
  lemma FirstAtStart(p: Pattern, msg: string)
    requires MatchAt(p, msg, 0).Some?
    ensures First(p, msg) == MatchAt(p, msg, 0)
  {
  }

  // ---------------------------------------------------------------- the summary

  /** `${n} column${n > 1 ? "s" : ""} verb`. */
  function ColumnPhrase(n: nat, verb: string): string
  {
    NatToString(n) + " column" + (if n > 1 then "s" else "") + " " + verb
  }

  /** The added and removed column counts, each only when it is not zero. */
  function SchemaParts(msg: string): seq<string>
  {
    match First(Counts, msg)
    case None => []
    case Some((a, b)) =>
      var added := DigitsValue(a);
      var removed := DigitsValue(b);
      (if added != 0 then [ColumnPhrase(added, "added")] else [])
      + (if removed != 0 then [ColumnPhrase(removed, "removed")] else [])
  }

  /** The change in the row count between two digit strings, when there is one. */
  function RowChange(before: string, after: string): seq<string>
    requires AllDigits(before) && AllDigits(after)
  {
    var diff := DigitsValue(after) - DigitsValue(before);
    if diff > 0 then ["row count increased by " + NatToString(diff)]
    else if diff < 0 then ["row count decreased by " + NatToString(-diff)]
    else []
  }

  /** The change in the row count, when the message has one. */
  function RowParts(msg: string): seq<string>
  {
    match First(Arrow("rows"), msg)
    case None => []
    case Some((before, after)) => RowChange(before, after)
  }

  /** The new column count, as the digits were written. */
  function ColumnParts(msg: string): seq<string>
  {
    match First(Arrow("columns"), msg)
    case None => []
    case Some((_, after)) => ["total columns " + after]
  }

  function Parts(msg: string): seq<string>
  {
    SchemaParts(msg) + RowParts(msg) + ColumnParts(msg)
  }

  /** The summary line: the parts after `Schema updated: `, or `Data updated` when none. */
  function Summary(msg: string): (r: string)
    ensures r == NO_SCHEMA_CHANGE <==> Parts(msg) == []
    ensures Parts(msg) != [] ==> r == SCHEMA_PREFIX + Join(Parts(msg), ", ")
  {
    var parts := Parts(msg);
    if |parts| > 0 then
      assert (SCHEMA_PREFIX + Join(parts, ", "))[0] == 'S';
      SCHEMA_PREFIX + Join(parts, ", ")
    else NO_SCHEMA_CHANGE
  }

  /** The quoted workspace name, or `Workspace`. */
  function WorkspaceName(msg: string): (r: string)
    ensures r != []
  {
    match First(Quoted, msg)
    case None => DEFAULT_WORKSPACE
    case Some((name, _)) => name
  }

  /** What `parseMessage` shows; the formatted time stamp is not modelled. */
  datatype Parsed = Parsed(workspace: string, summary: string)

  function ParseMessage(msg: string): Parsed
  {
    Parsed(WorkspaceName(msg), Summary(msg))
  }

  // ---------------------------------------------------------------- round trips

  /** A run of `k` digits followed by a non-digit or the end is taken whole. */
  lemma {:induction false} DigitRunOver(msg: string, i: nat, k: nat)
    requires i + k <= |msg| && AllDigits(msg[i..i + k])
    requires i + k == |msg| || !IsDigit(msg[i + k])
    ensures DigitRunEnd(msg, i) == i + k
    decreases k
  {
    if k > 0 {
      assert msg[i + 1..i + k] == msg[i..i + k][1..];
      DigitRunOver(msg, i + 1, k - 1);
    }
  }

  /** The lazy scan stops at the first quote after a name free of quotes and line breaks. */
  lemma {:induction false} LazyCloseFinds(msg: string, start: nat, j: nat, close: nat)
    requires start < j <= close < |msg| && msg[close] == '\''
    requires forall k :: start <= k < close ==> msg[k] != '\'' && !JsIsLineTerminator(msg[k])
    ensures LazyClose(msg, start, j) == Some(close)
    decreases close - j
  {
    if j < close {
      LazyCloseFinds(msg, start, j + 1, close);
    }
  }

  /** A message that opens with `Data updated in '<name>'` shows that name, for any name of
   *  one line without a quote. */
  lemma WorkspaceRoundTrip(name: string, rest: string)
    requires name != []
    requires forall k :: 0 <= k < |name| ==> name[k] != '\'' && !JsIsLineTerminator(name[k])
    ensures WorkspaceName(QUOTED_PREFIX + name + "'" + rest) == name
  {
    var msg := QUOTED_PREFIX + name + "'" + rest;
    var s := |QUOTED_PREFIX|;
    assert msg[..s] == QUOTED_PREFIX;
    assert forall k :: s <= k < s + |name| ==> msg[k] == name[k - s];
    LazyCloseFinds(msg, s, s + 1, s + |name|);
    assert msg[s..s + |name|] == name;
    assert MatchAt(Quoted, msg, 0) == Some((name, []));
  }

  /** Where the middle of three joined pieces and the last one sit. */
  lemma Pieces(pre: string, mid: string, post: string)
    ensures (pre + mid + post)[|pre|..|pre| + |mid|] == mid
    ensures forall k :: 0 <= k < |post| ==> (pre + mid + post)[|pre| + |mid| + k] == post[k]
  {
  }

  /** A `\s*` run stops at once before a character that is not white space. */
  lemma SpaceRunNone(msg: string, i: nat)
    requires i < |msg| && !JsIsSpace(msg[i])
    ensures SpaceRunEnd(msg, i) == i
  {
  }

  /** A single blank before a character that is not white space is a run of one. */
  lemma SpaceRunOne(msg: string, i: nat)
    requires i + 1 < |msg| && msg[i] == ' ' && !JsIsSpace(msg[i + 1])
    ensures SpaceRunEnd(msg, i) == i + 1
  {
    SpaceRunNone(msg, i + 1);
  }

  /** The first character of a non-empty digit run is not white space. */
  lemma DigitHead(msg: string, i: nat, D: string)
    requires D != [] && AllDigits(D) && i + |D| <= |msg| && msg[i..i + |D|] == D
    ensures msg[i] == D[0] && !JsIsSpace(msg[i])
  {
    assert msg[i] == msg[i..i + |D|][0];
  }

  /** The arrow expression at `i`, once each run it scans for is known. */
  lemma ArrowAtRuns(keyword: string, msg: string, x: nat, xEnd: nat, arrow: nat, y: nat, yEnd: nat,
                    X: string, Y: string)
    requires LiteralAt(msg, 0, keyword)
    requires SpaceRunEnd(msg, |keyword|) == x && x > |keyword|
    requires DigitRunEnd(msg, x) == xEnd && xEnd > x
    requires SpaceRunEnd(msg, xEnd) == arrow && arrow < |msg| && msg[arrow] == ARROW
    requires SpaceRunEnd(msg, arrow + 1) == y
    requires DigitRunEnd(msg, y) == yEnd && yEnd > y
    requires msg[x..xEnd] == X && msg[y..yEnd] == Y
    ensures ArrowAt(keyword, msg, 0) == Some((X, Y))
  {
  }

  /** The arrow expression matches at the start of a message laid out as `keyword x → y`
   *  with single spaces, `x` and `y` digit runs. */
  lemma ArrowAtLayout(keyword: string, msg: string, X: string, Y: string)
    requires X != [] && Y != [] && AllDigits(X) && AllDigits(Y)
    requires LiteralAt(msg, 0, keyword)
    requires |keyword| + 4 + |X| + |Y| <= |msg|
    requires msg[|keyword|] == ' ' && msg[|keyword| + 1..|keyword| + 1 + |X|] == X
    requires msg[|keyword| + 1 + |X|] == ' ' && msg[|keyword| + 2 + |X|] == ARROW && msg[|keyword| + 3 + |X|] == ' '
    requires msg[|keyword| + 4 + |X|..|keyword| + 4 + |X| + |Y|] == Y
    requires |keyword| + 4 + |X| + |Y| == |msg| || !IsDigit(msg[|keyword| + 4 + |X| + |Y|])
    ensures ArrowAt(keyword, msg, 0) == Some((X, Y))
  {
    var n := |keyword|;
    var x, xEnd := n + 1, n + 1 + |X|;
    var arrow, afterArrow := n + 2 + |X|, n + 3 + |X|;
    var y, yEnd := n + 4 + |X|, n + 4 + |X| + |Y|;
    BlankThenDigits(msg, n, x, xEnd, X, ' ');
    assert !JsIsSpace(ARROW);
    SpaceRunOne(msg, xEnd);
    BlankThenDigits(msg, afterArrow, y, yEnd, Y, if yEnd == |msg| then ' ' else msg[yEnd]);
    assert afterArrow == arrow + 1 && arrow == xEnd + 1;
    ArrowAtRuns(keyword, msg, x, xEnd, arrow, y, yEnd, X, Y);
  }

  /** One blank, then the digits `D`, then a character that is not a digit (or the end):
   *  the blank run and the digit run end where `D` does. */
  lemma BlankThenDigits(msg: string, i: nat, j: nat, e: nat, D: string, next: char)
    requires j == i + 1 && e == j + |D|
    requires D != [] && AllDigits(D) && e <= |msg|
    requires msg[i] == ' ' && msg[j..e] == D
    requires e == |msg| || (msg[e] == next && !IsDigit(next))
    ensures SpaceRunEnd(msg, i) == j && DigitRunEnd(msg, j) == e
  {
    DigitHead(msg, j, D);
    SpaceRunOne(msg, i);
    DigitRunOver(msg, j, |D|);
  }

  /** The text a `keyword x → y` change is written as. */
  function ArrowText(keyword: string, x: nat, y: nat): string
  {
    keyword + " " + NatToString(x) + " " + [ARROW] + " " + NatToString(y)
  }

  /** `keyword X → Y` followed by more text, for any two strings. */
  function ArrowLayout(keyword: string, X: string, Y: string, rest: string): string
  {
    keyword + " " + X + " " + [ARROW] + " " + Y + rest
  }

  /** Where the keyword and the first number of that text sit. */
  lemma ArrowLayoutFront(keyword: string, X: string, Y: string, rest: string)
    ensures var msg, n := ArrowLayout(keyword, X, Y, rest), |keyword|;
      && |msg| == n + 4 + |X| + |Y| + |rest|
      && LiteralAt(msg, 0, keyword)
      && msg[n] == ' ' && msg[n + 1..n + 1 + |X|] == X
  {
    var n := |keyword|;
    var tail := " " + [ARROW] + " " + Y + rest;
    var msg := ArrowLayout(keyword, X, Y, rest);
    assert msg == keyword + " " + X + tail;
    Pieces(keyword + " ", X, tail);
    assert msg[..n] == keyword;
  }

  /** Where the arrow and the second number of that text sit. */
  lemma ArrowLayoutBack(keyword: string, X: string, Y: string, rest: string)
    ensures var msg, m := ArrowLayout(keyword, X, Y, rest), |keyword| + 1 + |X|;
      && m + 3 + |Y| <= |msg|
      && msg[m] == ' ' && msg[m + 1] == ARROW && msg[m + 2] == ' '
      && msg[m + 3..m + 3 + |Y|] == Y
  {
    var front := keyword + " " + X;
    var msg := ArrowLayout(keyword, X, Y, rest);
    assert msg == front + " " + [ARROW] + " " + Y + rest;
    Pieces(front + " " + [ARROW] + " ", Y, rest);
    assert msg[|front|..|front| + 3] == " " + [ARROW] + " " by {
      Pieces(front, " " + [ARROW] + " ", Y + rest);
    }
  }

  /** What follows the second number. */
  lemma ArrowLayoutNext(keyword: string, X: string, Y: string, rest: string)
    requires rest != []
    ensures ArrowLayout(keyword, X, Y, rest)[|keyword| + 4 + |X| + |Y|] == rest[0]
  {
    var msg := ArrowLayout(keyword, X, Y, rest);
    var front := keyword + " " + X + " " + [ARROW] + " " + Y;
    assert msg == front + rest;
    assert |front| == |keyword| + 4 + |X| + |Y|;
  }

  /** Such a text matches where it starts. */
  lemma ArrowTextMatches(keyword: string, x: nat, y: nat, rest: string)
    requires rest == [] || !IsDigit(rest[0])
    ensures ArrowAt(keyword, ArrowText(keyword, x, y) + rest, 0) == Some((NatToString(x), NatToString(y)))
  {
    var X, Y := NatToString(x), NatToString(y);
    assert ArrowText(keyword, x, y) + rest == ArrowLayout(keyword, X, Y, rest);
    ArrowLayoutFront(keyword, X, Y, rest);
    ArrowLayoutBack(keyword, X, Y, rest);
    if rest != [] {
      ArrowLayoutNext(keyword, X, Y, rest);
    }
    ArrowAtLayout(keyword, ArrowLayout(keyword, X, Y, rest), X, Y);
  }

  /** The match found in such a text is that one, so its numbers come back. */
  lemma ArrowAtStart(keyword: string, x: nat, y: nat, rest: string)
    requires rest == [] || !IsDigit(rest[0])
    ensures First(Arrow(keyword), ArrowText(keyword, x, y) + rest) == Some((NatToString(x), NatToString(y)))
  {
    ArrowTextMatches(keyword, x, y, rest);
    FirstAtStart(Arrow(keyword), ArrowText(keyword, x, y) + rest);
  }

  /** The row part for two written numbers: their difference with its sign. */
  lemma RowChangeOf(x: nat, y: nat)
    ensures y > x ==> RowChange(NatToString(x), NatToString(y)) == ["row count increased by " + NatToString(y - x)]
    ensures y < x ==> RowChange(NatToString(x), NatToString(y)) == ["row count decreased by " + NatToString(x - y)]
    ensures y == x ==> RowChange(NatToString(x), NatToString(y)) == []
  {
    DigitsValueOfNatToString(x);
    DigitsValueOfNatToString(y);
  }

  /** `rows x → y` at the start of a message reports the difference with its sign, and nothing
   *  when the count did not change. */
  lemma RowsRoundTrip(x: nat, y: nat, rest: string)
    requires rest == [] || !IsDigit(rest[0])
    ensures y > x ==> RowParts(ArrowText("rows", x, y) + rest) == ["row count increased by " + NatToString(y - x)]
    ensures y < x ==> RowParts(ArrowText("rows", x, y) + rest) == ["row count decreased by " + NatToString(x - y)]
    ensures y == x ==> RowParts(ArrowText("rows", x, y) + rest) == []
  {
    ArrowAtStart("rows", x, y, rest);
    RowChangeOf(x, y);
  }

  /** `columns x → y` at the start of a message reports the new count. */
  lemma ColumnsRoundTrip(x: nat, y: nat, rest: string)
    requires rest == [] || !IsDigit(rest[0])
    ensures ColumnParts(ArrowText("columns", x, y) + rest) == ["total columns " + NatToString(y)]
  {
    ArrowAtStart("columns", x, y, rest);
  }

  /** The counts expression matches at the start of a message laid out as `(+a/-b)`. */
  lemma CountsAtLayout(msg: string, A: string, B: string)
    requires A != [] && B != [] && AllDigits(A) && AllDigits(B)
    requires LiteralAt(msg, 0, "(+") && 5 + |A| + |B| <= |msg|
    requires msg[2..2 + |A|] == A && msg[2 + |A|] == '/' && msg[3 + |A|] == '-'
    requires msg[4 + |A|..4 + |A| + |B|] == B && msg[4 + |A| + |B|] == ')'
    ensures CountsAt(msg, 0) == Some((A, B))
  {
    var aEnd, minus, b, bEnd := 2 + |A|, 3 + |A|, 4 + |A|, 4 + |A| + |B|;
    DigitRunOver(msg, 2, |A|);
    SpaceRunNone(msg, aEnd);
    SpaceRunNone(msg, minus);
    DigitRunOver(msg, b, |B|);
    assert aEnd + 1 == minus && minus + 1 == b;
    CountsAtRuns(msg, aEnd, minus, bEnd, A, B);
  }

  /** The counts expression matches once its runs are known. */
  lemma CountsAtRuns(msg: string, aEnd: nat, minus: nat, bEnd: nat, A: string, B: string)
    requires LiteralAt(msg, 0, "(+")
    requires DigitRunEnd(msg, 2) == aEnd && aEnd > 2
    requires SpaceRunEnd(msg, aEnd) == aEnd && aEnd < |msg| && msg[aEnd] == '/'
    requires SpaceRunEnd(msg, aEnd + 1) == minus && minus < |msg| && msg[minus] == '-'
    requires DigitRunEnd(msg, minus + 1) == bEnd && bEnd > minus + 1 && bEnd < |msg| && msg[bEnd] == ')'
    requires msg[2..aEnd] == A && msg[minus + 1..bEnd] == B
    ensures CountsAt(msg, 0) == Some((A, B))
  {
  }

  /** The text an `(+a/-b)` change is written as. */
  function CountsText(a: nat, b: nat): string
  {
    "(+" + NatToString(a) + "/-" + NatToString(b) + ")"
  }

  /** Where the opening and the first count of `(+A/-B)` followed by more text sit. */
  lemma CountsLayoutFront(A: string, B: string, rest: string)
    ensures var msg := "(+" + A + "/-" + B + ")" + rest;
      && LiteralAt(msg, 0, "(+") && |msg| == 5 + |A| + |B| + |rest|
      && msg[2..2 + |A|] == A
  {
    var tail := "/-" + B + ")" + rest;
    var msg := "(+" + A + "/-" + B + ")" + rest;
    assert msg == "(+" + A + tail;
    Pieces("(+", A, tail);
    assert msg[..2] == "(+";
  }

  /** Where the separator, the second count and the closing parenthesis sit. */
  lemma CountsLayoutBack(A: string, B: string, rest: string)
    ensures var msg := "(+" + A + "/-" + B + ")" + rest;
      && 5 + |A| + |B| <= |msg|
      && msg[2 + |A|] == '/' && msg[3 + |A|] == '-'
      && msg[4 + |A|..4 + |A| + |B|] == B && msg[4 + |A| + |B|] == ')'
  {
    var front := "(+" + A;
    var msg := "(+" + A + "/-" + B + ")" + rest;
    assert msg == front + "/-" + B + (")" + rest);
    Pieces(front + "/-", B, ")" + rest);
    assert msg[|front|..|front| + 2] == "/-" by {
      Pieces(front, "/-", B + ")" + rest);
    }
  }

  /** Where the pieces of an `(+a/-b)` text sit. */
  lemma CountsTextShape(a: nat, b: nat, rest: string)
    ensures var msg, A, B := CountsText(a, b) + rest, NatToString(a), NatToString(b);
      && LiteralAt(msg, 0, "(+") && 5 + |A| + |B| <= |msg|
      && msg[2..2 + |A|] == A && msg[2 + |A|] == '/' && msg[3 + |A|] == '-'
      && msg[4 + |A|..4 + |A| + |B|] == B && msg[4 + |A| + |B|] == ')'
  {
    var A, B := NatToString(a), NatToString(b);
    assert CountsText(a, b) + rest == "(+" + A + "/-" + B + ")" + rest;
    CountsLayoutFront(A, B, rest);
    CountsLayoutBack(A, B, rest);
  }

  /** The match found in such a text is that one. */
  lemma CountsTextMatches(a: nat, b: nat, rest: string)
    ensures First(Counts, CountsText(a, b) + rest) == Some((NatToString(a), NatToString(b)))
  {
    CountsTextShape(a, b, rest);
    CountsAtLayout(CountsText(a, b) + rest, NatToString(a), NatToString(b));
    FirstAtStart(Counts, CountsText(a, b) + rest);
  }

  /** `(+a/-b)` at the start of a message names the added and removed columns that are not
   *  zero, with the plural for more than one. */
  lemma CountsRoundTrip(a: nat, b: nat, rest: string)
    ensures SchemaParts(CountsText(a, b) + rest)
         == (if a != 0 then [ColumnPhrase(a, "added")] else [])
            + (if b != 0 then [ColumnPhrase(b, "removed")] else [])
  {
    CountsTextMatches(a, b, rest);
    DigitsValueOfNatToString(a);
    DigitsValueOfNatToString(b);
  }

  /** A literal found in a message brings its first character with it. */
  lemma LiteralHead(msg: string, i: nat, lit: string)
    requires lit != []
    ensures LiteralAt(msg, i, lit) ==> lit[0] in msg
  {
    if LiteralAt(msg, i, lit) {
      assert msg[i] == msg[i..i + |lit|][0];
    }
  }

  /** A message with no `D`, no `(` and no arrow matches none of the expressions, so the page
   *  shows the default name and `Data updated`. */
  lemma {:induction false} QuietMessage(msg: string)
    requires 'D' !in msg && '(' !in msg && ARROW !in msg
    ensures ParseMessage(msg) == Parsed(DEFAULT_WORKSPACE, NO_SCHEMA_CHANGE)
  {
    forall j | 0 <= j <= |msg|
      ensures !LiteralAt(msg, j, QUOTED_PREFIX) && !LiteralAt(msg, j, "(+")
    {
      LiteralHead(msg, j, QUOTED_PREFIX);
      LiteralHead(msg, j, "(+");
    }
    assert First(Quoted, msg).None? && First(Counts, msg).None?;
    assert First(Arrow("rows"), msg).None? && First(Arrow("columns"), msg).None?;
    assert Parts(msg) == [];
  }

  lemma StructuralPrefixIsQuiet()
    ensures forall c :: c in "Structural change detected in workspace '" ==> c != 'D' && c != '(' && c != ARROW
  {
    var p := "Structural change detected in workspace '";
    assert forall i :: 0 <= i < |p| ==> p[i] !in {'D', '(', ARROW};
  }

  /** The structural change notification the data checks create matches none of the
   *  expressions: the page shows `Workspace` and `Data updated` for it, for every workspace
   *  name without `D`, `(` or an arrow. */
  lemma StructuralMessageShowsNothing(name: string)
    requires 'D' !in name && '(' !in name && ARROW !in name
    ensures ParseMessage(Records.StructuralText(name)) == Parsed(DEFAULT_WORKSPACE, NO_SCHEMA_CHANGE)
  {
    var p := "Structural change detected in workspace '";
    StructuralPrefixIsQuiet();
    var msg := Records.StructuralText(name);
    assert msg == p + name + "'.";
    assert forall c :: c in msg ==> c in p || c in name || c in "'.";
    QuietMessage(msg);
  }

  // ---------------------------------------------------------------- the list

  /** A notification as the page holds it. */
  datatype Item = Item(id: string, message: string, isRead: bool)

  /** `prev.filter(n => n.id !== id)`. */
  function WithoutId(items: seq<Item>, id: string): (r: seq<Item>)
    ensures forall n :: n in r <==> n in items && n.id != id
  {
    RejectMember(items, (n: Item) => n.id == id);
    Reject(items, (n: Item) => n.id == id)
  }

  /** Deleting takes out every entry with the id and keeps the others in their order. */
  lemma DeleteKeepsOthers(before: seq<Item>, n: Item, after: seq<Item>)
    ensures WithoutId(before + [n] + after, n.id) == WithoutId(before, n.id) + WithoutId(after, n.id)
  {
    var drop := (m: Item) => m.id == n.id;
    RejectAppend(before + [n], after, drop);
    RejectAppend(before, [n], drop);
  }

  /** Deleting an id the list does not hold leaves the list as it was. */
  lemma WithoutAbsentId(items: seq<Item>, id: string)
    requires forall n :: n in items ==> n.id != id
    ensures WithoutId(items, id) == items
  {
    RejectNone(items, (n: Item) => n.id == id);
  }

  /** Whether `fetchNotifications` asks the backend to mark everything read. */
  predicate AnyUnread(items: seq<Item>)
  {
    exists n :: n in items && !n.isRead
  }

  /** The page's path for one notification below the `/notifications` prefix, and for all. */
  function DeletePath(id: string): string
  {
    "/" + id
  }

  const CLEAR_PATH := "/"

  /** Every delete of an id the list could hold (one path segment) reaches the backend's
   *  delete route, but the clear request reaches no route; with the missing route added it
   *  is served, and it deletes exactly what the page removed. */
  lemma ClearAllIsNeverServed(id: string)
    requires Notifications.Segment(id)
    ensures Notifications.Route("DELETE", DeletePath(id)) == Some(Notifications.DeleteOne(id))
    ensures Notifications.Route("DELETE", CLEAR_PATH).None?
    ensures Notifications.RouteWithClearAll("DELETE", CLEAR_PATH) == Some(Notifications.DeleteAll)
  {
    assert DeletePath(id)[1..] == id;
  }

  class ActivityPage {
    var notifications: seq<Item>
    var loading: bool
    var processingId: Option<string>
    var showClearModal: bool

    constructor ()
      ensures notifications == [] && loading && processingId.None? && !showClearModal
    {
      notifications := [];
      loading := true;
      processingId := None;
      showClearModal := false;
    }

    /** `fetchNotifications`: `fetched` is the list the backend returned, if the request
     *  succeeded; the result says whether the read-all request follows. */
    method Load(fetched: Option<seq<Item>>) returns (markAllRead: bool)
      modifies this
      ensures fetched.Some? ==> notifications == fetched.value
      ensures fetched.None? ==> notifications == old(notifications)
      ensures markAllRead <==> fetched.Some? && AnyUnread(fetched.value)
      ensures !loading && processingId == old(processingId) && showClearModal == old(showClearModal)
    {
      markAllRead := false;
      if fetched.Some? {
        notifications := fetched.value;
        markAllRead := AnyUnread(fetched.value);
      }
      loading := false;
    }

    /** `handleDelete`: the entry goes at once and comes back with the rest of the old list
     *  when the backend refuses (`deleted` is whether the request succeeded). */
    method Delete(id: string, deleted: bool)
      modifies this
      ensures deleted ==> notifications == WithoutId(old(notifications), id)
      ensures !deleted ==> notifications == old(notifications)
      ensures processingId.None? && loading == old(loading) && showClearModal == old(showClearModal)
    {
      processingId := Some(id);
      var backup := notifications;
      notifications := WithoutId(notifications, id);
      if !deleted {
        notifications := backup;
      }
      processingId := None;
    }

    /** `handleClearAll`: the list empties at once and comes back when the request fails. */
    method ClearAll(cleared: bool)
      modifies this
      ensures cleared ==> notifications == []
      ensures !cleared ==> notifications == old(notifications)
      ensures !showClearModal && loading == old(loading) && processingId == old(processingId)
    {
      showClearModal := false;
      var backup := notifications;
      notifications := [];
      if !cleared {
        notifications := backup;
      }
    }
  }
}
