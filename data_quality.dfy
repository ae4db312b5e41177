/** The rule-based data-quality report (app/services/data_quality.py): per-column missing
 *  and unique percentages, duplicate rows, IQR outliers, and the insight messages derived
 *  from them by fixed thresholds. */
module DataQuality {
  import opened Common
  import Sorting

  // ================================================================ column-name heuristic

  const ID_KEYWORDS: seq<string> := ["id", "uuid", "guid", "key"]
  const BAD_KEYWORDS: seq<string> := ["email", "name", "location", "address", "city"]

  predicate ContainsAny(c: string, keywords: seq<string>)
  {
    exists i :: 0 <= i < |keywords| && Contains(c, keywords[i])
  }

  /** `_looks_like_id_column_name`: the lower-cased, stripped name contains an ID keyword
   *  and none of the keywords of columns that are unique without being identifiers. */
  predicate LooksLikeIdColumnName(col: string)
  {
    var c := PyStrip(Lower(col));
    ContainsAny(c, ID_KEYWORDS) && !ContainsAny(c, BAD_KEYWORDS)
  }

  /** A pattern without white space, as every keyword is. */
  predicate Spaceless(k: string)
  {
    k != [] && forall j :: 0 <= j < |k| ==> !PyIsSpace(k[j])
  }

  lemma OccursInSlice(s: string, k: string, i: int, a: int, b: int)
    requires OccursAt(s, k, i) && 0 <= a <= i && i + |k| <= b <= |s|
    ensures OccursAt(s[a..b], k, i - a)
  {
    var u, v := s[a..b][i - a..i - a + |k|], s[i..i + |k|];
    assert forall j :: 0 <= j < |k| ==> u[j] == v[j];
  }

  lemma OccursFromSlice(s: string, k: string, i: int, a: int, b: int)
    requires 0 <= a <= b <= |s| && OccursAt(s[a..b], k, i)
    ensures OccursAt(s, k, a + i)
  {
    var u, v := s[a + i..a + i + |k|], s[a..b][i..i + |k|];
    assert forall j :: 0 <= j < |k| ==> u[j] == v[j];
  }

  /** The stripped string is a slice of the original with only white space around it. */
  lemma StripSlice(s: string) returns (a: nat, b: nat)
    ensures a <= b <= |s| && PyStrip(s) == s[a..b]
    ensures forall i :: 0 <= i < a ==> PyIsSpace(s[i])
    ensures forall i :: b <= i < |s| ==> PyIsSpace(s[i])
  {
    var l := TrimLeft(s, PyIsSpace);
    a := |s| - |l|;
    var t := TrimRight(l, PyIsSpace);
    b := a + |t|;
    SuffixPrefix(s, a, |t|);
    forall i | b <= i < |s|
      ensures PyIsSpace(s[i])
    {
      SuffixIndex(s, a, i);
    }
  }

  lemma SuffixPrefix(s: string, a: nat, n: nat)
    requires a + n <= |s|
    ensures s[a..][..n] == s[a..a + n]
  {
  }

  lemma SuffixIndex(s: string, a: nat, i: nat)
    requires a <= i < |s|
    ensures s[a..][i - a] == s[i]
  {
  }

  /** A keyword without white space occurs in a string exactly when it occurs in the stripped
   *  string. */
  lemma ContainsStripped(s: string, k: string)
    requires Spaceless(k)
    ensures Contains(PyStrip(s), k) <==> Contains(s, k)
  {
    var a, b := StripSlice(s);
    ContainsIff(s, k);
    ContainsIff(PyStrip(s), k);
    if Contains(s, k) {
      var i :| OccursAt(s, k, i);
      OccurrenceInside(s, k, i, a, b);
      OccursInSlice(s, k, i, a, b);
    }
    if Contains(PyStrip(s), k) {
      var i :| OccursAt(s[a..b], k, i);
      OccursFromSlice(s, k, i, a, b);
    }
  }

  /** An occurrence of a space-free keyword lies inside the stripped part. */
  lemma OccurrenceInside(s: string, k: string, i: int, a: nat, b: nat)
    requires Spaceless(k) && OccursAt(s, k, i) && a <= b <= |s|
    requires forall j :: 0 <= j < a ==> PyIsSpace(s[j])
    requires forall j :: b <= j < |s| ==> PyIsSpace(s[j])
    ensures a <= i && i + |k| <= b
  {
    var n := |k|;
    assert s[i..i + n][0] == s[i] && s[i..i + n][n - 1] == s[i + n - 1];
    assert !PyIsSpace(s[i]) && !PyIsSpace(s[i + n - 1]);
  }

  lemma ContainsAnyStripped(c: string, keywords: seq<string>)
    requires forall i :: 0 <= i < |keywords| ==> Spaceless(keywords[i])
    ensures ContainsAny(PyStrip(c), keywords) <==> ContainsAny(c, keywords)
  {
    forall i | 0 <= i < |keywords|
      ensures Contains(PyStrip(c), keywords[i]) <==> Contains(c, keywords[i])
    {
      ContainsStripped(c, keywords[i]);
    }
  }

  lemma IdKeywordsSpaceless()
    ensures forall i :: 0 <= i < |ID_KEYWORDS| ==> Spaceless(ID_KEYWORDS[i])
  {
    assert Spaceless("id") && Spaceless("uuid") && Spaceless("guid") && Spaceless("key");
  }

  lemma BadKeywordsSpaceless()
    ensures forall i :: 0 <= i < |BAD_KEYWORDS| ==> Spaceless(BAD_KEYWORDS[i])
  {
    assert Spaceless("email") && Spaceless("name") && Spaceless("location");
    assert Spaceless("address") && Spaceless("city");
  }

  /** White space around the name never changes the verdict: the keywords are matched in
   *  the lower-cased name as given. */
  lemma IdColumnNameIgnoresSpaces(col: string)
    ensures LooksLikeIdColumnName(col) <==>
      ContainsAny(Lower(col), ID_KEYWORDS) && !ContainsAny(Lower(col), BAD_KEYWORDS)
  {
    IdKeywordsSpaceless();
    BadKeywordsSpaceless();
    ContainsAnyStripped(Lower(col), ID_KEYWORDS);
    ContainsAnyStripped(Lower(col), BAD_KEYWORDS);
  }

  // ================================================================ series heuristics

  /** The `.` of a Python regular expression: any character but a newline. */
  predicate RegexAny(c: char)
  {
    c != '\n'
  }

  /** After an `@`: at least one character and then a `.`, with no newline before it. */
  predicate DotFollows(s: string)
  {
    |s| >= 2 && RegexAny(s[0]) && (s[1] == '.' || DotFollows(s[1..]))
  }

  /** `re.search(r"@.+\.", v)`. */
  predicate EmailHit(v: string)
  {
    |v| > 0 && ((v[0] == '@' && DotFollows(v[1..])) || EmailHit(v[1..]))
  }

  /** A `.` at `j`, at least one character in, with no newline before it. */
  predicate DotAt(s: string, j: int)
  {
    1 <= j < |s| && s[j] == '.' && forall k :: 0 <= k < j ==> RegexAny(s[k])
  }

  lemma DotAtShift(s: string, j: int)
    requires |s| >= 1 && j >= 1
    ensures DotAt(s, j + 1) <==> RegexAny(s[0]) && DotAt(s[1..], j)
  {
    if RegexAny(s[0]) && DotAt(s[1..], j) {
      forall k | 0 < k < j + 1
        ensures RegexAny(s[k])
      {
        assert s[k] == s[1..][k - 1];
      }
    }
    if DotAt(s, j + 1) {
      forall k | 0 <= k < j
        ensures RegexAny(s[1..][k])
      {
        assert s[1..][k] == s[k + 1];
      }
    }
  }

  lemma {:induction false} DotFollowsIff(s: string)
    ensures DotFollows(s) <==> exists j :: DotAt(s, j)
  {
    if |s| >= 2 {
      DotFollowsIff(s[1..]);
      if DotFollows(s) {
        if s[1] == '.' {
          assert DotAt(s, 1);
        } else {
          var j :| DotAt(s[1..], j);
          DotAtShift(s, j);
        }
      }
      if exists j :: DotAt(s, j) {
        var j :| DotAt(s, j);
        if s[1] != '.' {
          assert j >= 2;
          DotAtShift(s, j - 1);
        }
      }
    }
  }

  /** An `@` at `i` and a `.` at `j`, at least two characters later, with no newline
   *  between them. */
  predicate EmailAt(v: string, i: int, j: int)
  {
    0 <= i < |v| && v[i] == '@' && DotAt(v[i + 1..], j - i - 1)
  }

  lemma EmailAtShift(v: string, i: int, j: int)
    requires |v| >= 1 && i >= 1
    ensures EmailAt(v, i, j) <==> EmailAt(v[1..], i - 1, j - 1)
  {
    if 0 <= i < |v| {
      assert v[i + 1..] == v[1..][i..];
    }
  }

  /** An e-mail hit is an `@` followed, after at least one character and no newline, by a `.`. */
  lemma {:induction false} EmailHitIff(v: string)
    ensures EmailHit(v) <==> exists i, j :: EmailAt(v, i, j)
  {
    if |v| > 0 {
      EmailHitIff(v[1..]);
      DotFollowsIff(v[1..]);
      if EmailHit(v) {
        if v[0] == '@' && DotFollows(v[1..]) {
          var j :| DotAt(v[1..], j);
          assert EmailAt(v, 0, j + 1);
        } else {
          var i, j :| EmailAt(v[1..], i, j);
          EmailAtShift(v, i + 1, j + 1);
        }
      }
      if exists i, j :: EmailAt(v, i, j) {
        var i, j :| EmailAt(v, i, j);
        if i == 0 {
          assert DotAt(v[1..], j - 1);
        } else {
          EmailAtShift(v, i, j);
        }
      }
    }
  }

  /** The characters of `[A-Za-z\s\.\-']`. */
  predicate NameChar(c: char)
  {
    ('A' <= c <= 'Z') || ('a' <= c <= 'z') || PyIsSpace(c) || c == '.' || c == '-' || c == '\''
  }

  /** `re.fullmatch(r"[A-Za-z\s\.\-']+", t)` on a non-empty string. */
  predicate NameChars(t: string)
  {
    forall k :: 0 <= k < |t| ==> NameChar(t[k])
  }

  /** A stripped value of 2 to 40 characters that fully matches `[A-Za-z\s\.\-']+`. */
  predicate NameHit(v: string)
  {
    var t := PyStrip(v);
    2 <= |t| <= 40 && NameChars(t)
  }

  /** `.head(30)` of the non-null values as strings. */
  function Sample(texts: seq<string>): (r: seq<string>)
    ensures |r| <= 30
  {
    Sorting.Take(texts, 30)
  }

  function EmailHits(sample: seq<string>): (n: nat)
    ensures n <= |sample|
  {
    if sample == [] then 0 else EmailHits(sample[..|sample| - 1]) + (if EmailHit(sample[|sample| - 1]) then 1 else 0)
  }

  function NameHits(sample: seq<string>): (n: nat)
    ensures n <= |sample|
  {
    if sample == [] then 0 else NameHits(sample[..|sample| - 1]) + (if NameHit(sample[|sample| - 1]) then 1 else 0)
  }

  /** `hits / len(sample) >= 0.6`. With at most 30 values the quotient is at least 1/150 away
   *  from 0.6 unless equal to it, so the float comparison is the exact rational one. */
  predicate AtLeastSixTenths(hits: nat, total: nat)
  {
    total > 0 && 5 * hits >= 3 * total
  }

  /** `_looks_like_email_series`. */
  predicate LooksLikeEmailSeries(texts: seq<string>)
  {
    AtLeastSixTenths(EmailHits(Sample(texts)), |Sample(texts)|)
  }

  /** At least six in ten of the first 30 values look like personal names. */
  predicate NameSeries(texts: seq<string>)
  {
    AtLeastSixTenths(NameHits(Sample(texts)), |Sample(texts)|)
  }

  /** `_looks_like_name_series`: counts the name-like values of the sample in a loop. */
  method LooksLikeNameSeries(texts: seq<string>) returns (b: bool)
    ensures b == NameSeries(texts)
    ensures b ==> |texts| > 0
  {
    var sample := Sorting.Take(texts, 30);
    if sample == [] {
      return false;
    }
    var hits := 0;
    var i := 0;
    while i < |sample|
      invariant 0 <= i <= |sample|
      invariant hits == NameHits(sample[..i])
    {
      var v := PyStrip(sample[i]);
      NameHitsSnoc(sample, i);
      if 2 <= |v| <= 40 && NameChars(v) {
        hits := hits + 1;
      }
      i := i + 1;
    }
    assert sample[..|sample|] == sample;
    b := 5 * hits >= 3 * |sample|;
  }

  lemma NameHitsSnoc(sample: seq<string>, i: nat)
    requires i < |sample|
    ensures NameHits(sample[..i + 1]) == NameHits(sample[..i]) + (if NameHit(sample[i]) then 1 else 0)
  {
    assert sample[..i + 1][..i] == sample[..i];
  }

  /** A sample with at least 18 of its (at most 30) values hitting passes; an empty column
   *  never does. */
  lemma SeriesThreshold(hits: nat, total: nat)
    requires hits <= total <= 30
    ensures AtLeastSixTenths(hits, total) <==> total > 0 && hits * 5 >= total * 3
    ensures total == 30 ==> (AtLeastSixTenths(hits, total) <==> hits >= 18)
    ensures !AtLeastSixTenths(hits, 0)
  {
  }

  // ================================================================ percentages

  /** Python's `round(x, 2)` on the exact value: to the nearest hundredth, halves to even. */
  function Round2(x: real): real
  {
    var y := x * 100.0;
    var f := y.Floor;
    var d := y - f as real;
    var n := if d > 0.5 then f + 1 else if d < 0.5 then f else if f % 2 == 0 then f else f + 1;
    n as real / 100.0
  }

  /** Rounding moves a value by at most half a hundredth, and keeps it non-negative. */
  lemma Round2Close(x: real)
    ensures x - 0.005 <= Round2(x) <= x + 0.005
    ensures x >= 0.0 ==> Round2(x) >= 0.0
  {
    var y := x * 100.0;
    var f := y.Floor;
    assert f as real <= y < f as real + 1.0;
  }

  /** `round((count / total) * 100, 2) if total > 0 else 0.0`. */
  function Percent(count: nat, total: nat): real
  {
    if total > 0 then Round2(Share(count, total)) else 0.0
  }

  /** The exact percentage `count / total * 100`. */
  function Share(count: nat, total: nat): real
    requires total > 0
  {
    count as real / total as real * 100.0
  }

  lemma ShareBounds(count: nat, total: nat)
    requires total > 0
    ensures 0.0 <= Share(count, total)
    ensures count <= total ==> Share(count, total) <= 100.0
  {
    var q := count as real / total as real;
    assert q * total as real == count as real;
  }

  lemma PercentBounds(count: nat, total: nat)
    ensures Percent(count, total) >= 0.0
    ensures total == 0 ==> Percent(count, total) == 0.0
    ensures total > 0 ==> Share(count, total) - 0.005 <= Percent(count, total) <= Share(count, total) + 0.005
    ensures count <= total ==> Percent(count, total) <= 100.005
  {
    if total > 0 {
      ShareBounds(count, total);
      Round2Close(Share(count, total));
    }
  }

  /** A percentage rounds to 0.0 although the count is positive: one missing value in a
   *  hundred thousand rows. */
  lemma TinyShareRoundsToZero()
    ensures Percent(1, 100000) == 0.0
  {
    assert 1 as real / 100000 as real * 100.0 == 0.001;
    assert (0.001 * 100.0).Floor == 0;
  }

  // ================================================================ quantiles and outliers

  function Id(x: real): real
  {
    x
  }

  lemma MulNonneg(a: real, b: real)
    requires 0.0 <= a && 0.0 <= b
    ensures 0.0 <= a * b
  {
  }

  /** Scaling by a non-negative factor keeps the order. */
  lemma MulMono(a: real, b: real, c: real)
    requires a <= b && 0.0 <= c
    ensures a * c <= b * c
  {
    MulNonneg(b - a, c);
    assert (b - a) * c == b * c - a * c;
  }

  /** The fractional position `p * (n - 1)` of a quantile among `n` sorted values. */
  function Position(n: nat, p: real): (pos: real)
    requires n > 0 && 0.0 <= p <= 1.0
    ensures 0.0 <= pos <= (n - 1) as real
  {
    MulNonneg(p, (n - 1) as real);
    MulMono(p, 1.0, (n - 1) as real);
    p * (n - 1) as real
  }

  lemma PositionMono(n: nat, p: real, q: real)
    requires n > 0 && 0.0 <= p <= q <= 1.0
    ensures Position(n, p) <= Position(n, q)
  {
    MulMono(p, q, (n - 1) as real);
  }

  /** pandas' default quantile of sorted values: linear interpolation between the two
   *  values around `Position`. */
  function Quantile(s: seq<real>, p: real): real
    requires |s| > 0 && 0.0 <= p <= 1.0
  {
    var pos := Position(|s|, p);
    var lo := pos.Floor;
    var hi := if lo + 1 < |s| then lo + 1 else lo;
    s[lo] + (s[hi] - s[lo]) * (pos - lo as real)
  }

  /** Linear interpolation stays between its end points. */
  lemma Interpolation(a: real, b: real, t: real)
    requires a <= b && 0.0 <= t <= 1.0
    ensures a <= a + (b - a) * t <= b
  {
    MulNonneg(b - a, t);
    MulMono(t, 1.0, b - a);
  }

  /** On ascending values the interpolated quantile lies between its two neighbours. */
  lemma QuantileBetween(s: seq<real>, p: real)
    requires |s| > 0 && 0.0 <= p <= 1.0
    requires Sorting.SortedAsc(s, Id)
    ensures var lo := Position(|s|, p).Floor;
      0 <= lo < |s| && s[lo] <= Quantile(s, p) && (lo + 1 < |s| ==> Quantile(s, p) <= s[lo + 1])
      && (lo + 1 == |s| ==> Quantile(s, p) == s[lo])
  {
    var pos := Position(|s|, p);
    var lo := pos.Floor;
    if lo + 1 < |s| {
      assert Id(s[lo]) <= Id(s[lo + 1]);
      Interpolation(s[lo], s[lo + 1], pos - lo as real);
    }
  }

  /** On ascending values a lower quantile is never above a higher one. */
  lemma QuantileMonotone(s: seq<real>, p: real, q: real)
    requires |s| > 0 && 0.0 <= p <= q <= 1.0
    requires Sorting.SortedAsc(s, Id)
    ensures Quantile(s, p) <= Quantile(s, q)
  {
    var pp := Position(|s|, p);
    var pq := Position(|s|, q);
    PositionMono(|s|, p, q);
    var lp := pp.Floor;
    var lq := pq.Floor;
    QuantileBetween(s, p);
    QuantileBetween(s, q);
    if lp < lq {
      assert Id(s[lp + 1]) <= Id(s[lq]);
    } else if lp + 1 < |s| {
      assert Id(s[lp]) <= Id(s[lp + 1]);
      assert lp == lq;
      assert Quantile(s, p) == s[lp] + (s[lp + 1] - s[lp]) * (pp - lp as real);
      assert Quantile(s, q) == s[lp] + (s[lp + 1] - s[lp]) * (pq - lp as real);
      SameCell(s[lp], s[lp + 1], pp - lp as real, pq - lp as real);
    }
  }

  lemma SameCell(a: real, b: real, t: real, u: real)
    requires a <= b && t <= u
    ensures a + (b - a) * t <= a + (b - a) * u
  {
    MulMono(t, u, b - a);
  }

  function CountOutside(values: seq<real>, lower: real, upper: real): (n: nat)
    ensures n <= |values|
  {
    if values == [] then 0
    else CountOutside(values[..|values| - 1], lower, upper)
         + (if values[|values| - 1] < lower || values[|values| - 1] > upper then 1 else 0)
  }

  function Q1(values: seq<real>): real
    requires |values| > 0
  {
    Quantile(Sorting.SortAsc(values, Id), 0.25)
  }

  function Q3(values: seq<real>): real
    requires |values| > 0
  {
    Quantile(Sorting.SortAsc(values, Id), 0.75)
  }

  /** The IQR outlier count of a numeric column's non-null values. */
  function OutlierCount(values: seq<real>): nat
  {
    if |values| < 10 then 0
    else
      var iqr := Q3(values) - Q1(values);
      if iqr == 0.0 then 0
      else CountOutside(values, Q1(values) - 1.5 * iqr, Q3(values) + 1.5 * iqr)
  }

  /** Fewer than ten values or a zero IQR give no outliers; otherwise the count is the
   *  number of values outside the fences, with a positive IQR. */
  lemma OutlierCountMeaning(values: seq<real>)
    ensures OutlierCount(values) <= |values|
    ensures OutlierCount(values) > 0 ==> |values| >= 10 && Q3(values) - Q1(values) > 0.0
    ensures |values| >= 10 && Q3(values) - Q1(values) != 0.0 ==>
      OutlierCount(values) == CountOutside(values, Q1(values) - 1.5 * (Q3(values) - Q1(values)),
                                       Q3(values) + 1.5 * (Q3(values) - Q1(values)))
  {
    if |values| >= 10 {
      QuantileMonotone(Sorting.SortAsc(values, Id), 0.25, 0.75);
    }
  }

  // ================================================================ the report

  /** A column of the uploaded frame: whether pandas types it as a number, its missing and
   *  distinct non-null counts, its non-null numeric values (for numeric columns) and its
   *  non-null values as strings. */
  datatype Column = Column(name: string, numeric: bool, missing: nat, unique: nat,
                           values: seq<real>, texts: seq<string>)

  /** The frame: its columns, its row count, and `df.duplicated().sum()`, `None` when pandas
   *  raises on it. */
  datatype Frame = Frame(columns: seq<Column>, totalRows: nat, duplicates: Option<nat>)

  /** No column name occurs twice (`SELECT a, a` gives a frame where one does). */
  predicate DistinctNames(cols: seq<Column>)
  {
    forall i, j :: 0 <= i < j < |cols| ==> cols[i].name != cols[j].name
  }

  /** One key of the four per-column dictionaries of the report. */
  datatype ColumnReport = ColumnReport(name: string, missing: nat, missingPercent: real,
                                       uniqueCount: nat, uniquePercent: real)

  datatype QualityReport = QualityReport(
    columns: seq<ColumnReport>, duplicateRows: nat, outliers: seq<(string, nat)>,
    numericColumns: seq<string>, categoricalColumns: seq<string>)

  function RowOf(c: Column, total: nat): ColumnReport
  {
    ColumnReport(c.name, c.missing, Percent(c.missing, total), c.unique, Percent(c.unique, total))
  }

  function ColumnRows(cols: seq<Column>, total: nat): (r: seq<ColumnReport>)
    ensures |r| == |cols|
    ensures forall i :: 0 <= i < |cols| ==> r[i] == RowOf(cols[i], total)
  {
    if cols == [] then [] else ColumnRows(cols[..|cols| - 1], total) + [RowOf(cols[|cols| - 1], total)]
  }

  function NumericNames(cols: seq<Column>): (r: seq<string>)
    ensures forall x :: x in r <==> exists i :: 0 <= i < |cols| && cols[i].numeric && cols[i].name == x
  {
    if cols == [] then []
    else
      var c := cols[|cols| - 1];
      var r0 := NumericNames(cols[..|cols| - 1]);
      assert forall i :: 0 <= i < |cols| - 1 ==> cols[..|cols| - 1][i] == cols[i];
      if c.numeric then r0 + [c.name] else r0
  }

  function CategoricalNames(cols: seq<Column>): (r: seq<string>)
    ensures forall x :: x in r <==> exists i :: 0 <= i < |cols| && !cols[i].numeric && cols[i].name == x
  {
    if cols == [] then []
    else
      var c := cols[|cols| - 1];
      var r0 := CategoricalNames(cols[..|cols| - 1]);
      assert forall i :: 0 <= i < |cols| - 1 ==> cols[..|cols| - 1][i] == cols[i];
      if c.numeric then r0 else r0 + [c.name]
  }

  /** The outlier dictionary, keyed by the numeric columns in frame order. */
  function OutlierRows(cols: seq<Column>): (r: seq<(string, nat)>)
    ensures forall e :: e in r ==> exists i :: 0 <= i < |cols| && cols[i].numeric && e == (cols[i].name, OutlierCount(cols[i].values))
  {
    if cols == [] then []
    else
      var c := cols[|cols| - 1];
      var r0 := OutlierRows(cols[..|cols| - 1]);
      assert forall i :: 0 <= i < |cols| - 1 ==> cols[..|cols| - 1][i] == cols[i];
      if c.numeric then r0 + [(c.name, OutlierCount(c.values))] else r0
  }

  function ReportOf(f: Frame): QualityReport
  {
    QualityReport(ColumnRows(f.columns, f.totalRows), f.duplicates.GetOr(0), OutlierRows(f.columns),
                  NumericNames(f.columns), CategoricalNames(f.columns))
  }

  /** Every numeric column appears in the outlier dictionary, and nothing else does. */
  lemma {:induction false} OutlierRowsCover(cols: seq<Column>, i: nat)
    requires i < |cols| && cols[i].numeric
    ensures (cols[i].name, OutlierCount(cols[i].values)) in OutlierRows(cols)
  {
    var last := |cols| - 1;
    if i < last {
      assert cols[..last][i] == cols[i];
      OutlierRowsCover(cols[..last], i);
    }
  }

  // ================================================================ insights

  datatype Severity = Low | Medium | High

  datatype Insight =
    | DatasetClean
    | MissingValues(column: string, percent: real, severity: Severity)
    | Duplicates(rows: nat, severity: Severity)
    | Outliers(column: string, count: nat, severity: Severity)
    | NumericColumnsFound(count: nat, shown: seq<string>, more: bool)
    | PossibleIdColumn(column: string, uniquePercent: real)

  function PercentKey(e: (string, real)): real
  {
    e.1
  }

  function CountKey(e: (string, nat)): real
  {
    e.1 as real
  }

  function SumMissingPercent(rows: seq<ColumnReport>): real
  {
    if rows == [] then 0.0 else SumMissingPercent(rows[..|rows| - 1]) + rows[|rows| - 1].missingPercent
  }

  /** A sum of non-negative percentages is zero exactly when each of them is. */
  lemma {:induction false} SumZeroIff(rows: seq<ColumnReport>)
    requires forall i :: 0 <= i < |rows| ==> rows[i].missingPercent >= 0.0
    ensures SumMissingPercent(rows) >= 0.0
    ensures SumMissingPercent(rows) == 0.0 <==> forall i :: 0 <= i < |rows| ==> rows[i].missingPercent == 0.0
  {
    if rows != [] {
      var init := rows[..|rows| - 1];
      assert forall i :: 0 <= i < |init| ==> init[i] == rows[i];
      SumZeroIff(init);
    }
  }

  function CleanInsight(f: Frame): (r: seq<Insight>)
  {
    if f.totalRows > 0 && SumMissingPercent(ColumnRows(f.columns, f.totalRows)) == 0.0
       && f.duplicates.GetOr(0) == 0
    then [DatasetClean] else []
  }

  /** `_top_missing_columns`: the five largest missing percentages, ties in column order. */
  function TopMissingColumns(rows: seq<ColumnReport>, n: nat): seq<(string, real)>
  {
    Sorting.Take(Sorting.SortDesc(MissingPercents(rows), PercentKey), n)
  }

  function MissingPercents(rows: seq<ColumnReport>): (r: seq<(string, real)>)
    ensures |r| == |rows|
    ensures forall i :: 0 <= i < |rows| ==> r[i] == (rows[i].name, rows[i].missingPercent)
  {
    if rows == [] then []
    else MissingPercents(rows[..|rows| - 1]) + [(rows[|rows| - 1].name, rows[|rows| - 1].missingPercent)]
  }

  function MissingInsight(e: (string, real)): seq<Insight>
  {
    if e.1 >= 30.0 then [MissingValues(e.0, e.1, High)]
    else if e.1 >= 10.0 then [MissingValues(e.0, e.1, Medium)]
    else []
  }

  function MissingInsights(top: seq<(string, real)>): seq<Insight>
  {
    if top == [] then [] else MissingInsights(top[..|top| - 1]) + MissingInsight(top[|top| - 1])
  }

  /** Each missing-values insight is one of the top entries with at least 10%, high iff at
   *  least 30%. */
  lemma {:induction false} MissingInsightsSound(top: seq<(string, real)>)
    ensures |MissingInsights(top)| <= |top|
    ensures forall x :: x in MissingInsights(top) ==>
      x.MissingValues? && (x.column, x.percent) in top && x.percent >= 10.0
      && (x.severity == High <==> x.percent >= 30.0) && x.severity != Low
  {
    if top != [] {
      var init := top[..|top| - 1];
      MissingInsightsSound(init);
      assert forall e :: e in init ==> e in top;
    }
  }

  function DuplicateInsight(dup: nat): seq<Insight>
  {
    if dup > 0 then [Duplicates(dup, if dup < 50 then Medium else High)] else []
  }

  function TopOutliers(outliers: seq<(string, nat)>): seq<(string, nat)>
  {
    Sorting.Take(Sorting.SortDesc(outliers, CountKey), 3)
  }

  function OutlierInsight(e: (string, nat)): seq<Insight>
  {
    if e.1 >= 10 then [Outliers(e.0, e.1, High)]
    else if e.1 >= 1 then [Outliers(e.0, e.1, Medium)]
    else []
  }

  function OutlierInsights(top: seq<(string, nat)>): seq<Insight>
  {
    if top == [] then [] else OutlierInsights(top[..|top| - 1]) + OutlierInsight(top[|top| - 1])
  }

  /** Each outlier insight is one of the top entries with at least one outlier, high iff at
   *  least 10. */
  lemma {:induction false} OutlierInsightsSound(top: seq<(string, nat)>)
    ensures |OutlierInsights(top)| <= |top|
    ensures forall x :: x in OutlierInsights(top) ==>
      x.Outliers? && (x.column, x.count) in top && x.count >= 1
      && (x.severity == High <==> x.count >= 10) && x.severity != Low
  {
    if top != [] {
      var init := top[..|top| - 1];
      OutlierInsightsSound(init);
      assert forall e :: e in init ==> e in top;
    }
  }

  /** The numeric columns whose names do not look like identifiers. */
  function Chartable(names: seq<string>): (r: seq<string>)
    ensures forall x :: x in r <==> x in names && !LooksLikeIdColumnName(x)
  {
    if names == [] then []
    else
      var r0 := Chartable(names[..|names| - 1]);
      var x := names[|names| - 1];
      assert names == names[..|names| - 1] + [x];
      if LooksLikeIdColumnName(x) then r0 else r0 + [x]
  }

  function NumericInsight(chartable: seq<string>): seq<Insight>
  {
    if |chartable| > 0
    then [NumericColumnsFound(|chartable|, Sorting.Take(chartable, 5), |chartable| > 5)]
    else []
  }

  /** The identifier test applied to a column whose unique percentage is at least 95. */
  predicate IdColumn(c: Column, total: nat)
  {
    Percent(c.unique, total) >= 95.0 && !LooksLikeEmailSeries(c.texts) && !NameSeries(c.texts)
    && LooksLikeIdColumnName(c.name)
  }

  /** The insight the identifier test gives one column, if any. */
  function IdInsight(c: Column, total: nat): seq<Insight>
  {
    if IdColumn(c, total) then [PossibleIdColumn(c.name, Percent(c.unique, total))] else []
  }

  function IdInsights(cols: seq<Column>, total: nat): (r: seq<Insight>)
    ensures |r| <= |cols|
    ensures forall x :: x in r ==> x.PossibleIdColumn?
  {
    if cols == [] then []
    else
      var c := cols[|cols| - 1];
      IdInsights(cols[..|cols| - 1], total) + IdInsight(c, total)
  }

  /** Every insight, uncapped, in the order the rules run. */
  function AllInsights(f: Frame): seq<Insight>
  {
    var rows := ColumnRows(f.columns, f.totalRows);
    CleanInsight(f)
    + MissingInsights(TopMissingColumns(rows, 5))
    + DuplicateInsight(f.duplicates.GetOr(0))
    + OutlierInsights(TopOutliers(OutlierRows(f.columns)))
    + NumericInsight(Chartable(NumericNames(f.columns)))
    + (if f.totalRows >= 50 then IdInsights(f.columns, f.totalRows) else [])
  }

  /** Python's `s[:n]`: a negative bound counts from the end. */
  function PySliceTo<T>(s: seq<T>, n: int): (r: seq<T>)
    ensures |r| <= |s| && r == s[..|r|]
    ensures 0 <= n ==> |r| == if n < |s| then n else |s|
    ensures n < 0 ==> |r| == if |s| + n > 0 then |s| + n else 0
  {
    if 0 <= n then Sorting.Take(s, n)
    else if |s| + n > 0 then s[..|s| + n] else []
  }

  // ================================================================ the analysis

  method BuildColumnRows(cols: seq<Column>, total: nat) returns (rows: seq<ColumnReport>)
    ensures rows == ColumnRows(cols, total)
  {
    rows := [];
    var i := 0;
    while i < |cols|
      invariant 0 <= i <= |cols|
      invariant rows == ColumnRows(cols[..i], total)
    {
      var c := cols[i];
      var missingPct := if total > 0 then Round2(c.missing as real / total as real * 100.0) else 0.0;
      var uniquePct := if total > 0 then Round2(c.unique as real / total as real * 100.0) else 0.0;
      rows := rows + [ColumnReport(c.name, c.missing, missingPct, c.unique, uniquePct)];
      assert cols[..i + 1][..i] == cols[..i];
      i := i + 1;
    }
    assert cols[..|cols|] == cols;
  }

  method BuildOutlierRows(cols: seq<Column>) returns (outliers: seq<(string, nat)>)
    ensures outliers == OutlierRows(cols)
  {
    outliers := [];
    var i := 0;
    while i < |cols|
      invariant 0 <= i <= |cols|
      invariant outliers == OutlierRows(cols[..i])
    {
      assert cols[..i + 1][..i] == cols[..i];
      if cols[i].numeric {
        var s := cols[i].values;
        var count := 0;
        if |s| >= 10 {
          var q1, q3 := Q1(s), Q3(s);
          var iqr := q3 - q1;
          if iqr != 0.0 {
            count := CountOutside(s, q1 - 1.5 * iqr, q3 + 1.5 * iqr);
          }
        }
        outliers := outliers + [(cols[i].name, count)];
      }
      i := i + 1;
    }
    assert cols[..|cols|] == cols;
  }

  lemma MissingInsightsSnoc(top: seq<(string, real)>, i: nat)
    requires i < |top|
    ensures MissingInsights(top[..i + 1]) == MissingInsights(top[..i]) + MissingInsight(top[i])
  {
    assert top[..i + 1][..i] == top[..i];
  }

  method AppendMissingInsights(acc: seq<Insight>, top: seq<(string, real)>) returns (r: seq<Insight>)
    ensures r == acc + MissingInsights(top)
  {
    r := acc;
    var i := 0;
    while i < |top|
      invariant 0 <= i <= |top|
      invariant r == acc + MissingInsights(top[..i])
    {
      var col, pct := top[i].0, top[i].1;
      var found := [];
      if pct >= 30.0 {
        found := [MissingValues(col, pct, High)];
      } else if pct >= 10.0 {
        found := [MissingValues(col, pct, Medium)];
      }
      assert found == MissingInsight(top[i]);
      MissingInsightsSnoc(top, i);
      AppendAssoc(acc, MissingInsights(top[..i]), found);
      r := r + found;
      i := i + 1;
    }
    assert top[..|top|] == top;
  }

  lemma OutlierInsightsSnoc(top: seq<(string, nat)>, i: nat)
    requires i < |top|
    ensures OutlierInsights(top[..i + 1]) == OutlierInsights(top[..i]) + OutlierInsight(top[i])
  {
    assert top[..i + 1][..i] == top[..i];
  }

  method AppendOutlierInsights(acc: seq<Insight>, top: seq<(string, nat)>) returns (r: seq<Insight>)
    ensures r == acc + OutlierInsights(top)
  {
    r := acc;
    var i := 0;
    while i < |top|
      invariant 0 <= i <= |top|
      invariant r == acc + OutlierInsights(top[..i])
    {
      var col, count := top[i].0, top[i].1;
      var found := [];
      if count >= 10 {
        found := [Outliers(col, count, High)];
      } else if count >= 1 {
        found := [Outliers(col, count, Medium)];
      }
      assert found == OutlierInsight(top[i]);
      OutlierInsightsSnoc(top, i);
      AppendAssoc(acc, OutlierInsights(top[..i]), found);
      r := r + found;
      i := i + 1;
    }
    assert top[..|top|] == top;
  }

  /** The check `analyze_dataframe_quality` makes for one column: a unique share of at least
   *  95%, values that look neither like e-mails nor like names, and an identifier's name. */
  method IdInsightFor(c: Column, upct: real, total: nat) returns (r: seq<Insight>)
    requires upct == Percent(c.unique, total)
    ensures r == IdInsight(c, total)
  {
    r := [];
    if upct >= 95.0 && !LooksLikeEmailSeries(c.texts) {
      var nameLike := LooksLikeNameSeries(c.texts);
      if !nameLike && LooksLikeIdColumnName(c.name) {
        r := [PossibleIdColumn(c.name, upct)];
      }
    }
  }

  lemma IdInsightsSnoc(cols: seq<Column>, total: nat, i: nat)
    requires i < |cols|
    ensures IdInsights(cols[..i + 1], total) == IdInsights(cols[..i], total) + IdInsight(cols[i], total)
  {
    assert cols[..i + 1][..i] == cols[..i];
  }

  /** The identifier scan over the unique-percentage dictionary. */
  method AppendIdInsights(acc: seq<Insight>, cols: seq<Column>, rows: seq<ColumnReport>, total: nat)
    returns (r: seq<Insight>)
    requires rows == ColumnRows(cols, total)
    ensures r == acc + IdInsights(cols, total)
  {
    r := acc;
    var i := 0;
    while i < |rows|
      invariant 0 <= i <= |rows|
      invariant r == acc + IdInsights(cols[..i], total)
    {
      var found := IdInsightFor(cols[i], rows[i].uniquePercent, total);
      IdInsightsSnoc(cols, total, i);
      AppendAssoc(acc, IdInsights(cols[..i], total), found);
      r := r + found;
      i := i + 1;
    }
    assert cols[..|cols|] == cols;
  }

  /** The insight rules, run over the finished report. */
  method CollectInsights(f: Frame, rows: seq<ColumnReport>, dup: nat, outliers: seq<(string, nat)>,
                         numCols: seq<string>) returns (all: seq<Insight>)
    requires rows == ColumnRows(f.columns, f.totalRows) && dup == f.duplicates.GetOr(0)
    requires outliers == OutlierRows(f.columns) && numCols == NumericNames(f.columns)
    ensures all == AllInsights(f)
  {
    var total := f.totalRows;
    all := RowInsights(f, rows, dup);
    all := AppendOutlierInsights(all, TopOutliers(outliers));
    var chartable := Chartable(numCols);
    if |chartable| > 0 {
      all := all + [NumericColumnsFound(|chartable|, Sorting.Take(chartable, 5), |chartable| > 5)];
    }
    assert all == CleanInsight(f) + MissingInsights(TopMissingColumns(rows, 5)) + DuplicateInsight(dup)
                  + OutlierInsights(TopOutliers(outliers)) + NumericInsight(chartable);
    if total >= 50 {
      all := AppendIdInsights(all, f.columns, rows, total);
    }
  }

  /** The first three rules: the clean dataset, the missing values and the duplicates. */
  method RowInsights(f: Frame, rows: seq<ColumnReport>, dup: nat) returns (all: seq<Insight>)
    requires rows == ColumnRows(f.columns, f.totalRows) && dup == f.duplicates.GetOr(0)
    ensures all == CleanInsight(f) + MissingInsights(TopMissingColumns(rows, 5)) + DuplicateInsight(dup)
  {
    all := [];
    if f.totalRows > 0 && SumMissingPercent(rows) == 0.0 && dup == 0 {
      all := all + [DatasetClean];
    }
    assert all == CleanInsight(f);
    all := AppendMissingInsights(all, TopMissingColumns(rows, 5));
    if dup > 0 {
      all := all + [Duplicates(dup, if dup < 50 then Medium else High)];
    }
  }

  /** `analyze_dataframe_quality`: the report and the insights, capped at `maxInsights`.
   *  A column name that occurs twice makes `df[col]` a frame of two columns, and `int` of
   *  its per-column missing counts raises `TypeError`: that is `None`. */
  method AnalyzeQuality(f: Frame, maxInsights: int) returns (r: Option<(QualityReport, seq<Insight>)>)
    ensures r.None? <==> !DistinctNames(f.columns)
    ensures r.Some? ==> r.value.0 == ReportOf(f) && r.value.1 == PySliceTo(AllInsights(f), maxInsights)
  {
    if !DistinctNames(f.columns) {
      return None;
    }
    var total := f.totalRows;
    var numCols := NumericNames(f.columns);
    var catCols := CategoricalNames(f.columns);
    var rows := BuildColumnRows(f.columns, total);
    var dup := if f.duplicates.Some? then f.duplicates.value else 0;
    var outliers := BuildOutlierRows(f.columns);
    var report := QualityReport(rows, dup, outliers, numCols, catCols);
    var all := CollectInsights(f, rows, dup, outliers, numCols);
    r := Some((report, PySliceTo(all, maxInsights)));
  }

  // ================================================================ properties of the insights

  /** The parts of `AllInsights`, one per rule. */
  datatype Parts = Parts(clean: seq<Insight>, missing: seq<Insight>, duplicates: seq<Insight>,
                         outliers: seq<Insight>, numeric: seq<Insight>, ids: seq<Insight>)

  function PartsOf(f: Frame): Parts
  {
    var rows := ColumnRows(f.columns, f.totalRows);
    Parts(CleanInsight(f), MissingInsights(TopMissingColumns(rows, 5)), DuplicateInsight(f.duplicates.GetOr(0)),
          OutlierInsights(TopOutliers(OutlierRows(f.columns))), NumericInsight(Chartable(NumericNames(f.columns))),
          if f.totalRows >= 50 then IdInsights(f.columns, f.totalRows) else [])
  }

  predicate KindsSorted(p: Parts)
  {
    (forall y :: y in p.clean ==> y.DatasetClean?)
    && (forall y :: y in p.missing ==> y.MissingValues?)
    && (forall y :: y in p.duplicates ==> y.Duplicates?)
    && (forall y :: y in p.outliers ==> y.Outliers?)
    && (forall y :: y in p.numeric ==> y.NumericColumnsFound?)
    && (forall y :: y in p.ids ==> y.PossibleIdColumn?)
  }

  /** Each insight of the result comes from the rule of its own kind. */
  lemma InsightKinds(f: Frame, x: Insight)
    ensures var p := PartsOf(f);
      AllInsights(f) == p.clean + p.missing + p.duplicates + p.outliers + p.numeric + p.ids
      && (x in AllInsights(f) <==>
         (x.DatasetClean? && x in p.clean) || (x.MissingValues? && x in p.missing)
         || (x.Duplicates? && x in p.duplicates) || (x.Outliers? && x in p.outliers)
         || (x.NumericColumnsFound? && x in p.numeric) || (x.PossibleIdColumn? && x in p.ids))
  {
    var p := PartsOf(f);
    var rows := ColumnRows(f.columns, f.totalRows);
    MissingInsightsSound(TopMissingColumns(rows, 5));
    OutlierInsightsSound(TopOutliers(OutlierRows(f.columns)));
    assert KindsSorted(p);
    SplitByKind(p, x);
  }

  lemma SplitByKind(p: Parts, x: Insight)
    requires KindsSorted(p)
    ensures x in p.clean + p.missing + p.duplicates + p.outliers + p.numeric + p.ids <==>
         (x.DatasetClean? && x in p.clean) || (x.MissingValues? && x in p.missing)
         || (x.Duplicates? && x in p.duplicates) || (x.Outliers? && x in p.outliers)
         || (x.NumericColumnsFound? && x in p.numeric) || (x.PossibleIdColumn? && x in p.ids)
  {
  }

  /** The clean-dataset insight appears exactly when there are rows, no duplicates and every
   *  missing percentage rounds to zero; it then comes first. */
  lemma CleanIff(f: Frame)
    ensures DatasetClean in AllInsights(f) <==>
      f.totalRows > 0 && f.duplicates.GetOr(0) == 0
      && forall i :: 0 <= i < |f.columns| ==> Percent(f.columns[i].missing, f.totalRows) == 0.0
    ensures DatasetClean in AllInsights(f) ==> AllInsights(f)[0] == DatasetClean
  {
    InsightKinds(f, DatasetClean);
    CleanWhenNothingMissing(f);
  }

  /** The clean-dataset check: rows, no duplicates, and no missing percentage above zero. */
  lemma CleanWhenNothingMissing(f: Frame)
    ensures CleanInsight(f) == if f.totalRows > 0 && f.duplicates.GetOr(0) == 0
      && (forall i :: 0 <= i < |f.columns| ==> Percent(f.columns[i].missing, f.totalRows) == 0.0)
      then [DatasetClean] else []
  {
    var rows := ColumnRows(f.columns, f.totalRows);
    forall i | 0 <= i < |rows|
      ensures rows[i].missingPercent >= 0.0
    {
      PercentBounds(f.columns[i].missing, f.totalRows);
    }
    SumZeroIff(rows);
  }

  /** One missing value among a hundred thousand rows still reads as a clean dataset. */
  lemma CleanDespiteMissing()
    ensures var f := Frame([Column("a", false, 1, 1, [], ["x"])], 100000, Some(0));
      f.columns[0].missing > 0 && DatasetClean in AllInsights(f)
  {
    var f := Frame([Column("a", false, 1, 1, [], ["x"])], 100000, Some(0));
    TinyShareRoundsToZero();
    CleanIff(f);
  }

  lemma {:induction false} MissingInsightsComplete(top: seq<(string, real)>, e: (string, real))
    requires e in top && e.1 >= 10.0
    ensures MissingValues(e.0, e.1, if e.1 >= 30.0 then High else Medium) in MissingInsights(top)
  {
    var init := top[..|top| - 1];
    assert top == init + [top[|top| - 1]];
    if e != top[|top| - 1] {
      MissingInsightsComplete(init, e);
    }
  }

  /** A missing-values insight is reported exactly for the top five missing percentages of
   *  at least 10, as high from 30 and as medium below. */
  lemma MissingValuesIff(f: Frame, col: string, pct: real, sev: Severity)
    ensures MissingValues(col, pct, sev) in AllInsights(f) <==>
      (col, pct) in TopMissingColumns(ColumnRows(f.columns, f.totalRows), 5) && pct >= 10.0
      && sev == (if pct >= 30.0 then High else Medium)
  {
    var top := TopMissingColumns(ColumnRows(f.columns, f.totalRows), 5);
    InsightKinds(f, MissingValues(col, pct, sev));
    MissingInsightsSound(top);
    if (col, pct) in top && pct >= 10.0 {
      MissingInsightsComplete(top, (col, pct));
    }
  }

  /** The missing percentages reported are five at most, and no unreported column has a
   *  larger missing percentage than a reported one. */
  lemma TopMissingIsTop(rows: seq<ColumnReport>)
    ensures |TopMissingColumns(rows, 5)| <= 5
    ensures var top := TopMissingColumns(rows, 5);
      multiset(top) <= multiset(MissingPercents(rows))
      && forall x, y :: x in top && y in multiset(MissingPercents(rows)) - multiset(top) ==> x.1 >= y.1
  {
    var all := MissingPercents(rows);
    Sorting.TakeSortedTop(all, PercentKey, 5);
    var top := TopMissingColumns(rows, 5);
    forall x, y | x in top && y in multiset(all) - multiset(top)
      ensures x.1 >= y.1
    {
      assert PercentKey(x) >= PercentKey(y);
    }
  }

  lemma {:induction false} OutlierInsightsComplete(top: seq<(string, nat)>, e: (string, nat))
    requires e in top && e.1 >= 1
    ensures Outliers(e.0, e.1, if e.1 >= 10 then High else Medium) in OutlierInsights(top)
  {
    var init := top[..|top| - 1];
    assert top == init + [top[|top| - 1]];
    if e != top[|top| - 1] {
      OutlierInsightsComplete(init, e);
    }
  }

  /** An outlier insight is reported exactly for those of the three largest outlier counts
   *  that are positive, as high from 10 and as medium below. */
  lemma OutliersIff(f: Frame, col: string, count: nat, sev: Severity)
    ensures Outliers(col, count, sev) in AllInsights(f) <==>
      (col, count) in TopOutliers(OutlierRows(f.columns)) && count >= 1
      && sev == (if count >= 10 then High else Medium)
  {
    var top := TopOutliers(OutlierRows(f.columns));
    InsightKinds(f, Outliers(col, count, sev));
    OutlierInsightsSound(top);
    if (col, count) in top && count >= 1 {
      OutlierInsightsComplete(top, (col, count));
    }
  }

  /** The outlier counts reported are three at most, and no unreported numeric column has
   *  more outliers than a reported one. */
  lemma TopOutliersIsTop(outliers: seq<(string, nat)>)
    ensures |TopOutliers(outliers)| <= 3
    ensures var top := TopOutliers(outliers);
      multiset(top) <= multiset(outliers)
      && forall x, y :: x in top && y in multiset(outliers) - multiset(top) ==> x.1 >= y.1
  {
    Sorting.TakeSortedTop(outliers, CountKey, 3);
    var top := TopOutliers(outliers);
    forall x, y | x in top && y in multiset(outliers) - multiset(top)
      ensures x.1 >= y.1
    {
      assert CountKey(x) >= CountKey(y);
    }
  }

  /** The duplicate insight carries the duplicate count when it is positive: medium below
   *  50, high from 50. A failing duplicate count reads as none. */
  lemma DuplicatesIff(f: Frame, n: nat, sev: Severity)
    ensures Duplicates(n, sev) in AllInsights(f) <==>
      f.duplicates == Some(n) && n > 0 && sev == (if n < 50 then Medium else High)
  {
    InsightKinds(f, Duplicates(n, sev));
  }

  /** Some numeric column can be charted exactly when some numeric column has a name that
   *  does not look like an identifier. */
  lemma ChartableNonEmpty(cols: seq<Column>)
    ensures |Chartable(NumericNames(cols))| > 0 <==>
      exists i :: 0 <= i < |cols| && cols[i].numeric && !LooksLikeIdColumnName(cols[i].name)
  {
    var chartable := Chartable(NumericNames(cols));
    if exists i :: 0 <= i < |cols| && cols[i].numeric && !LooksLikeIdColumnName(cols[i].name) {
      var i :| 0 <= i < |cols| && cols[i].numeric && !LooksLikeIdColumnName(cols[i].name);
      assert cols[i].name in chartable;
    }
    if |chartable| > 0 {
      assert chartable[0] in chartable;
    }
  }

  /** The numeric-columns insight appears exactly when some numeric column has a name that
   *  does not look like an identifier; it counts the chartable columns, shows the first five
   *  and marks whether there are more. */
  lemma NumericIff(f: Frame, x: Insight)
    ensures x in AllInsights(f) && x.NumericColumnsFound? <==>
      (exists i :: 0 <= i < |f.columns| && f.columns[i].numeric && !LooksLikeIdColumnName(f.columns[i].name))
      && var chartable := Chartable(NumericNames(f.columns));
         x == NumericColumnsFound(|chartable|, Sorting.Take(chartable, 5), |chartable| > 5)
  {
    InsightKinds(f, x);
    ChartableNonEmpty(f.columns);
  }

  /** Column `c` gives the identifier insight `PossibleIdColumn(name, u)`. */
  predicate IdMatch(c: Column, total: nat, name: string, u: real)
  {
    c.name == name && u == Percent(c.unique, total) && IdColumn(c, total)
  }

  lemma IdInsightMatch(c: Column, total: nat, name: string, u: real)
    ensures PossibleIdColumn(name, u) in IdInsight(c, total) <==> IdMatch(c, total, name, u)
  {
  }

  /** The identifier insights of each column, one entry per column. */
  function IdParts(cols: seq<Column>, total: nat): (r: seq<seq<Insight>>)
    ensures |r| == |cols|
  {
    seq(|cols|, i requires 0 <= i < |cols| => IdInsight(cols[i], total))
  }

  lemma {:induction false} IdInsightsFlatten(cols: seq<Column>, total: nat)
    ensures IdInsights(cols, total) == Flatten(IdParts(cols, total))
  {
    if cols != [] {
      var init := cols[..|cols| - 1];
      IdInsightsFlatten(init, total);
      assert IdParts(cols, total)[..|cols| - 1] == IdParts(init, total);
    }
  }

  /** An insight is among the identifier insights exactly when some column's part holds it. */
  lemma IdInsightsMember(cols: seq<Column>, total: nat, x: Insight)
    ensures x in IdInsights(cols, total) <==> exists i :: 0 <= i < |cols| && x in IdParts(cols, total)[i]
  {
    IdInsightsFlatten(cols, total);
    FlattenMember(IdParts(cols, total), x);
  }

  lemma IdInsightsIff(cols: seq<Column>, total: nat, name: string, u: real)
    ensures PossibleIdColumn(name, u) in IdInsights(cols, total) <==>
      exists i :: 0 <= i < |cols| && IdMatch(cols[i], total, name, u)
  {
    var x := PossibleIdColumn(name, u);
    IdInsightsMember(cols, total, x);
    forall i | 0 <= i < |cols|
      ensures x in IdParts(cols, total)[i] <==> IdMatch(cols[i], total, name, u)
    {
      assert IdParts(cols, total)[i] == IdInsight(cols[i], total);
      IdInsightMatch(cols[i], total, name, u);
    }
  }

  /** An identifier insight names each column of a frame of at least 50 rows whose unique
   *  percentage is at least 95, whose values look neither like e-mails nor like names, and
   *  whose name looks like an identifier's. */
  lemma PossibleIdIff(f: Frame, name: string, u: real)
    ensures PossibleIdColumn(name, u) in AllInsights(f) <==>
      f.totalRows >= 50 &&
      exists i :: 0 <= i < |f.columns| && f.columns[i].name == name
                  && u == Percent(f.columns[i].unique, f.totalRows) && IdColumn(f.columns[i], f.totalRows)
  {
    InsightKinds(f, PossibleIdColumn(name, u));
    IdInsightsIff(f.columns, f.totalRows, name, u);
  }
}
