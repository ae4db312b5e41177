/** The workspace endpoints (app/api/workspaces.py): the update payload's validators, the
 *  three-workspace limit, the owner/member access check, the field clearing and team rewrite
 *  of an update, and the trend series of a column. */
module Workspaces {
  import opened Common
  import opened Records
  import Sorting
  import Snapshots
  import Polling

  const MAX_WORKSPACES: nat := 3
  const MAX_TEAM_EMAILS: nat := 2
  const MAX_DESCRIPTION: nat := 500

  // ================================================================ the update payload

  /** A payload field: absent from the request, or sent, possibly as `null`
   *  (`model_dump(exclude_unset=True)`). */
  datatype Field<T> = Unset | Set(value: Option<T>)

  datatype WorkspaceUpdate = WorkspaceUpdate(
    description: Field<string>,
    teamMemberEmails: Field<seq<string>>,
    dataSource: Field<string>,
    apiUrl: Field<string>,
    pollingInterval: Field<string>,
    isPollingActive: Field<bool>,
    trackedColumn: Field<string>,
    dbType: Field<string>,
    dbHost: Field<string>,
    dbPort: Field<int>,
    dbUser: Field<string>,
    dbPassword: Field<string>,
    dbName: Field<string>,
    dbQuery: Field<string>)

  const TEAM_TOO_LARGE := "You can add up to 2 team members only."
  const DESCRIPTION_TOO_LONG := "Description cannot be longer than 500 characters."

  /** The messages of the two field validators, in field order; the request is refused with
   *  422 unless there are none. */
  function ValidationErrors(u: WorkspaceUpdate): (errors: seq<string>)
    ensures errors == [] <==>
      !(u.description.Set? && u.description.value.Some? && |u.description.value.value| > MAX_DESCRIPTION)
      && !(u.teamMemberEmails.Set? && u.teamMemberEmails.value.Some? && |u.teamMemberEmails.value.value| > MAX_TEAM_EMAILS)
    ensures |errors| <= 2
  {
    (if u.description.Set? && u.description.value.Some? && |u.description.value.value| > MAX_DESCRIPTION
     then [DESCRIPTION_TOO_LONG] else [])
    + (if u.teamMemberEmails.Set? && u.teamMemberEmails.value.Some? && |u.teamMemberEmails.value.value| > MAX_TEAM_EMAILS
       then [TEAM_TOO_LARGE] else [])
  }

  // ================================================================ workspace ids

  /** Python `s.replace(pat, '')`: the non-overlapping occurrences of `pat`, scanned from the
   *  left, are removed. */
  function RemoveAll(s: string, pat: string): (r: string)
    requires pat != []
    ensures |r| <= |s|
    decreases |s|
  {
    if s == [] then []
    else if OccursAt(s, pat, 0) then RemoveAll(s[|pat|..], pat)
    else [s[0]] + RemoveAll(s[1..], pat)
  }

  lemma {:induction false} RemoveAllAbsent(s: string, pat: string)
    requires pat != [] && pat[0] !in s
    ensures RemoveAll(s, pat) == s
    decreases |s|
  {
    if s != [] {
      RemoveAllAbsent(s[1..], pat);
      assert s == [s[0]] + s[1..];
    }
  }

  predicate IsBrace(c: char)
  {
    c == '{' || c == '}'
  }

  predicate IsHexDigit(c: char)
  {
    ('0' <= c <= '9') || ('a' <= c <= 'f') || ('A' <= c <= 'F')
  }

  function HexDigitValue(c: char): (d: nat)
    requires IsHexDigit(c)
    ensures d < 16
  {
    if '0' <= c <= '9' then c as int - '0' as int
    else if 'a' <= c <= 'f' then c as int - 'a' as int + 10
    else c as int - 'A' as int + 10
  }

  predicate AllHex(s: string)
  {
    forall i :: 0 <= i < |s| ==> IsHexDigit(s[i])
  }

  function HexValue(s: string): nat
    requires AllHex(s)
  {
    if s == [] then 0 else HexValue(s[..|s| - 1]) * 16 + HexDigitValue(s[|s| - 1])
  }

  /** The text `uuid.UUID` parses: prefixes removed, braces stripped, hyphens dropped. */
  function UuidDigits(s: string): string
  {
    Without(Trim(RemoveAll(RemoveAll(s, "urn:"), "uuid:"), IsBrace), '-')
  }

  /** Hexadecimal digits with single underscores between them, as `int(_, 16)` accepts. */
  predicate Underscored(b: string)
  {
    b != [] && IsHexDigit(b[0]) && IsHexDigit(b[|b| - 1])
    && (forall i :: 0 <= i < |b| ==> IsHexDigit(b[i]) || b[i] == '_')
    && forall i :: 0 <= i < |b| - 1 && b[i] == '_' ==> b[i + 1] != '_'
  }

  /** The digits after an optional `0x` or `0X` prefix, which one underscore may follow. */
  function AfterPrefix(t: string): string
  {
    if |t| >= 2 && t[0] == '0' && (t[1] == 'x' || t[1] == 'X') then
      if |t| >= 3 && t[2] == '_' then t[3..] else t[2..]
    else t
  }

  /** The text `int(t, 16)` reads digits from: white space around and a sign removed, then
   *  the prefix. */
  function HexBody(t: string): string
  {
    var core := PyStrip(t);
    AfterPrefix(if core != [] && (core[0] == '+' || core[0] == '-') then core[1..] else core)
  }

  predicate Negative(t: string)
  {
    var core := PyStrip(t);
    core != [] && core[0] == '-'
  }

  /** Python's `int(t, 16)`; `None` where it raises `ValueError`. */
  function PyHexInt(t: string): (r: Option<int>)
  {
    var body := HexBody(t);
    if Underscored(body) then
      UnderscoredDigits(body);
      var v: int := HexValue(Without(body, '_'));
      Some(if Negative(t) then -v else v)
    else None
  }

  lemma UnderscoredDigits(b: string)
    requires Underscored(b)
    ensures AllHex(Without(b, '_'))
  {
    var digits := Without(b, '_');
    forall i | 0 <= i < |digits|
      ensures IsHexDigit(digits[i])
    {
      assert digits[i] in b && digits[i] != '_';
    }
  }

  /** `uuid.UUID(text)`: 32 characters must remain once the prefixes, the braces and the
   *  hyphens are gone; they are read by `int(_, 16)`, whose value must fit 128 bits. */
  function ParseUuid(s: string): (r: Option<WorkspaceId>)
    ensures r.Some? ==> |UuidDigits(s)| == 32 && r.value < UUID_LIMIT
    ensures |UuidDigits(s)| == 32 && AllHex(UuidDigits(s)) ==> r == Some(HexValue(UuidDigits(s)))
  {
    var h := UuidDigits(s);
    if |h| != 32 then None
    else
      PlainDigitsRead(h);
      match PyHexInt(h)
      case Some(v) => if 0 <= v < UUID_LIMIT then Some(v) else None
      case None => None
  }

  lemma PlainDigitsRead(h: string)
    requires |h| == 32
    ensures AllHex(h) ==> PyHexInt(h) == Some(HexValue(h)) && HexValue(h) < UUID_LIMIT
  {
    if AllHex(h) {
      PlainHexInt(h);
    }
  }

  /** Plain digits are read as their value. */
  lemma PlainHexInt(h: string)
    requires |h| == 32 && AllHex(h)
    ensures PyHexInt(h) == Some(HexValue(h)) && HexValue(h) < UUID_LIMIT
  {
    PlainHexBody(h);
    assert Underscored(h);
    WithoutNone(h, '_');
    HexValueBound(h);
    UuidLimit();
  }

  lemma PlainHexBody(h: string)
    requires h != [] && AllHex(h)
    ensures HexBody(h) == h && !Negative(h)
  {
    assert IsHexDigit(h[0]) && IsHexDigit(h[|h| - 1]);
    TrimNothing(h, PyIsSpace);
    if |h| >= 2 {
      assert IsHexDigit(h[1]);
    }
  }

  lemma {:induction false} HexValueBound(s: string)
    requires AllHex(s)
    ensures HexValue(s) < Pow16(|s|)
  {
    if s != [] {
      HexValueBound(s[..|s| - 1]);
    }
  }

  /** `int` also takes a `0x` prefix: thirty digits after `0x` name their own value, an id
   *  looked up (and answered with 404 when absent) rather than refused with 400. */
  lemma PrefixedDigits(z: string)
    requires |z| == 30 && AllHex(z)
    ensures UuidDigits("0x" + z) == "0x" + z && !AllHex("0x" + z)
    ensures ParseUuid("0x" + z) == Some(HexValue(z))
  {
    var s := "0x" + z;
    UuidDigitsKeep(s);
    PrefixNotHex(z);
    PrefixedRead(z);
    ParseRead(s, HexValue(z));
  }

  lemma PrefixNotHex(z: string)
    ensures !AllHex("0x" + z)
  {
    assert ("0x" + z)[1] == 'x';
  }

  lemma ParseRead(s: string, v: int)
    requires |UuidDigits(s)| == 32 && PyHexInt(UuidDigits(s)) == Some(v) && 0 <= v < UUID_LIMIT
    ensures ParseUuid(s) == Some(v)
  {
  }

  lemma PrefixedRead(z: string)
    requires |z| == 30 && AllHex(z)
    ensures PyHexInt("0x" + z) == Some(HexValue(z)) && HexValue(z) < UUID_LIMIT
  {
    PrefixedBody(z);
    assert Underscored(z);
    WithoutNone(z, '_');
    HexValueBound(z);
    UuidLimit();
    assert Pow16(32) == 256 * Pow16(30);
  }

  lemma UuidDigitsKeep(s: string)
    requires s != [] && forall i :: 0 <= i < |s| ==> IsHexDigit(s[i]) || s[i] == 'x'
    ensures UuidDigits(s) == s
  {
    assert 'u' !in s;
    RemoveAllAbsent(s, "urn:");
    RemoveAllAbsent(s, "uuid:");
    assert !IsBrace(s[0]) && !IsBrace(s[|s| - 1]);
    TrimNothing(s, IsBrace);
    assert '-' !in s;
    WithoutNone(s, '-');
  }

  lemma PrefixedBody(z: string)
    requires z != [] && AllHex(z)
    ensures HexBody("0x" + z) == z && !Negative("0x" + z)
  {
    var s := "0x" + z;
    assert IsHexDigit(s[|s| - 1]);
    TrimNothing(s, PyIsSpace);
    assert IsHexDigit(z[0]);
    assert s[2..] == z;
  }

  /** The id 0 written as `0x` and thirty zeros. */
  lemma HexPrefixParses()
    ensures ParseUuid("0x" + seq(30, _ => '0')) == Some(0)
  {
    ZerosValue(30);
    PrefixedDigits(seq(30, _ => '0'));
  }

  lemma {:induction false} ZerosValue(n: nat)
    ensures AllHex(seq(n, _ => '0')) && HexValue(seq(n, _ => '0')) == 0
  {
    if n > 0 {
      assert seq(n, _ => '0')[..n - 1] == seq(n - 1, _ => '0');
      ZerosValue(n - 1);
    }
  }

  function Pow16(k: nat): (r: nat)
    ensures r >= 1
  {
    if k == 0 then 1 else 16 * Pow16(k - 1)
  }

  /** 16 to the 32nd, one more than the largest 128-bit id. */
  const UUID_LIMIT: nat := 0x1_0000_0000_0000_0000_0000_0000_0000_0000

  lemma UuidLimit()
    ensures Pow16(32) == UUID_LIMIT
  {
    assert Pow16(8) == 0x1_0000_0000;
    assert Pow16(16) == 0x1_0000_0000_0000_0000;
    assert Pow16(24) == 0x1_0000_0000_0000_0000_0000_0000;
  }

  function HexChar(d: nat): (c: char)
    requires d < 16
    ensures IsHexDigit(c) && HexDigitValue(c) == d && c != '-' && !IsBrace(c) && c != 'u'
  {
    if d < 10 then ('0' as int + d) as char else ('a' as int + d - 10) as char
  }

  /** The `k` lower-case hexadecimal digits of `n`, most significant first. */
  function HexDigits(n: nat, k: nat): (r: string)
    requires n < Pow16(k)
    ensures |r| == k && AllHex(r) && '-' !in r && 'u' !in r
    ensures forall i :: 0 <= i < k ==> !IsBrace(r[i])
  {
    if k == 0 then [] else HexDigits(n / 16, k - 1) + [HexChar(n % 16)]
  }

  lemma {:induction false} HexValueOfDigits(n: nat, k: nat)
    requires n < Pow16(k)
    ensures HexValue(HexDigits(n, k)) == n
  {
    if k > 0 {
      var r := HexDigits(n, k);
      assert r[..k - 1] == HexDigits(n / 16, k - 1);
      HexValueOfDigits(n / 16, k - 1);
    }
  }

  /** The canonical form `str(uuid)`: 8-4-4-4-12 lower-case digits. */
  function FormatUuid(n: WorkspaceId): (s: string)
    requires n < UUID_LIMIT
    ensures |s| == 36
  {
    UuidLimit();
    var h := HexDigits(n, 32);
    h[..8] + "-" + h[8..12] + "-" + h[12..16] + "-" + h[16..20] + "-" + h[20..]
  }

  /** Every canonical id parses back to its value, so only texts that are not ids are
   *  refused with 400. */
  lemma ParseFormatted(n: WorkspaceId)
    requires n < UUID_LIMIT
    ensures ParseUuid(FormatUuid(n)) == Some(n)
  {
    UuidLimit();
    var h := HexDigits(n, 32);
    var s := FormatUuid(n);
    FormattedShape(h);
    RemoveAllAbsent(s, "urn:");
    RemoveAllAbsent(s, "uuid:");
    TrimNothing(s, IsBrace);
    WithoutHyphens(h);
    HexValueOfDigits(n, 32);
  }

  lemma FormattedShape(h: string)
    requires |h| == 32 && 'u' !in h && forall i :: 0 <= i < 32 ==> !IsBrace(h[i])
    ensures var s := h[..8] + "-" + h[8..12] + "-" + h[12..16] + "-" + h[16..20] + "-" + h[20..];
      'u' !in s && |s| == 36 && !IsBrace(s[0]) && !IsBrace(s[35])
  {
    var s := h[..8] + "-" + h[8..12] + "-" + h[12..16] + "-" + h[16..20] + "-" + h[20..];
    assert s[0] == h[0] && s[35] == h[31];
    forall i | 0 <= i < |s|
      ensures s[i] != 'u'
    {
      assert s[i] == '-' || s[i] in h;
    }
  }

  lemma TrimNothing(s: string, isSpace: char -> bool)
    requires |s| > 0 && !isSpace(s[0]) && !isSpace(s[|s| - 1])
    ensures Trim(s, isSpace) == s
  {
    assert TrimLeft(s, isSpace) == s;
  }

  lemma WithoutHyphens(h: string)
    requires |h| == 32 && '-' !in h
    ensures Without(h[..8] + "-" + h[8..12] + "-" + h[12..16] + "-" + h[16..20] + "-" + h[20..], '-') == h
  {
    NotInSlice(h, 0, 8, '-');
    NotInSlice(h, 8, 12, '-');
    NotInSlice(h, 12, 16, '-');
    NotInSlice(h, 16, 20, '-');
    NotInSlice(h, 20, 32, '-');
    assert h[20..32] == h[20..];
    HyphenChain(h[..8], h[8..12], h[12..16], h[16..20], h[20..]);
    FiveGroups(h);
  }

  lemma FiveGroups(h: string)
    requires |h| == 32
    ensures h[..8] + h[8..12] + h[12..16] + h[16..20] + h[20..] == h
  {
    assert h[..8] + h[8..12] == h[..12];
    assert h[..12] + h[12..16] == h[..16];
    assert h[..16] + h[16..20] == h[..20];
  }

  /** Taking the hyphens out of five hyphen-free groups joined by hyphens joins the groups. */
  lemma HyphenChain(p1: string, p2: string, p3: string, p4: string, p5: string)
    requires '-' !in p1 && '-' !in p2 && '-' !in p3 && '-' !in p4 && '-' !in p5
    ensures Without(p1 + "-" + p2 + "-" + p3 + "-" + p4 + "-" + p5, '-') == p1 + p2 + p3 + p4 + p5
  {
    WithoutNone(p1, '-');
    HyphenThen(p1, p2);
    HyphenThen(p1 + "-" + p2, p3);
    HyphenThen(p1 + "-" + p2 + "-" + p3, p4);
    HyphenThen(p1 + "-" + p2 + "-" + p3 + "-" + p4, p5);
  }

  lemma NotInSlice<T>(s: seq<T>, i: nat, j: nat, x: T)
    requires i <= j <= |s| && x !in s
    ensures x !in s[i..j]
  {
  }

  lemma HyphenThen(a: string, b: string)
    requires '-' !in b
    ensures Without(a + "-" + b, '-') == Without(a, '-') + b
  {
    var w := Without(a, '-');
    WithoutItself('-');
    WithoutAppend(a, "-", '-');
    assert w + [] == w;
    assert Without(a + "-", '-') == w;
    WithoutNone(b, '-');
    WithoutAppend(a + "-", b, '-');
  }

  lemma WithoutItself<T>(x: T)
    ensures Without([x], x) == []
  {
    assert [x][1..] == [];
  }

  // ================================================================ the update

  /** The columns of a workspace that an update reads or writes, with the header columns
   *  `api_header_name` and `api_header_value` that the API fetcher sends. */
  datatype Settings = Settings(
    description: Option<string>,
    descriptionUpdatedAt: Option<int>,
    dataSource: Option<string>,
    apiUrl: Option<string>,
    apiHeaderName: Option<string>,
    apiHeaderValue: Option<string>,
    pollingInterval: Option<string>,
    isPollingActive: bool,
    trackedColumn: Option<string>,
    dbType: Option<string>,
    dbHost: Option<string>,
    dbPort: Option<int>,
    dbUser: Option<string>,
    dbPassword: Option<string>,
    dbName: Option<string>,
    dbQuery: Option<string>,
    team: seq<User>)

  /** A new workspace: no data source, polling off, no team. */
  const NEW_SETTINGS := Settings(None, None, None, None, None, None, None, false, None, None, None, None, None, None, None, None, [])

  /** Switching to `DB` or `CSV` clears the API URL; switching to `API` or `CSV` clears the
   *  connection fields except `db_type`. */
  predicate ClearsApi(source: Field<string>)
  {
    source == Set(Some("DB")) || source == Set(Some("CSV"))
  }

  predicate ClearsDb(source: Field<string>)
  {
    source == Set(Some("API")) || source == Set(Some("CSV"))
  }

  /** A column after the update: the value sent, else `None` if the switch cleared it, else
   *  unchanged. */
  function Assign<T>(f: Field<T>, cleared: bool, current: Option<T>): Option<T>
  {
    match f
    case Set(v) => v
    case Unset => if cleared then None else current
  }

  /** `db.query(User).filter(User.email == email).first()`. */
  function FirstByEmail(users: seq<User>, email: string): (r: Option<User>)
    ensures r.Some? ==> r.value in users && r.value.email == email
    ensures r.None? ==> forall i :: 0 <= i < |users| ==> users[i].email != email
  {
    if users == [] then None
    else if users[0].email == email then Some(users[0])
    else FirstByEmail(users[1..], email)
  }

  /** The new team: the registered user of each e-mail in turn, unless it is the caller;
   *  unknown e-mails are dropped. */
  function TeamFor(emails: seq<string>, users: seq<User>, caller: UserId): (team: seq<User>)
    ensures |team| <= |emails|
    ensures forall v :: v in team ==> v in users && v.id != caller && v.email in emails
    ensures forall i :: 0 <= i < |emails| && FirstByEmail(users, emails[i]).Some?
                        && FirstByEmail(users, emails[i]).value.id != caller
                        ==> FirstByEmail(users, emails[i]).value in team
  {
    if emails == [] then []
    else
      var init := emails[..|emails| - 1];
      var rest := TeamFor(init, users, caller);
      var v := FirstByEmail(users, emails[|emails| - 1]);
      assert forall i :: 0 <= i < |init| ==> init[i] == emails[i];
      if v.Some? && v.value.id != caller then rest + [v.value] else rest
  }

  /** The payload can be applied: a `null` team list makes the rewrite loop raise, and a
   *  `null` polling flag violates the column's NOT NULL constraint at the commit. */
  predicate Committable(u: WorkspaceUpdate)
  {
    u.teamMemberEmails != Set(None) && u.isPollingActive != Set(None)
  }

  /** A text sent for a `String(n)` column fits it (PostgreSQL counts characters). */
  predicate Fits(f: Field<string>, n: nat)
  {
    f.Set? && f.value.Some? ==> |f.value.value| <= n
  }

  const INT32_MIN: int := -0x8000_0000
  const INT32_MAX: int := 0x7FFF_FFFF

  /** Every value sent fits its column: `data_source`, `polling_interval` and `db_type` are
   *  `String(50)`, `api_url` and `db_host` `String(255)`, `tracked_column`, `db_user` and
   *  `db_name` `String(100)`, and `db_port` a 32-bit `Integer`; the other columns are
   *  unbounded. */
  predicate FitsColumns(u: WorkspaceUpdate)
  {
    Fits(u.dataSource, 50) && Fits(u.apiUrl, 255) && Fits(u.pollingInterval, 50)
    && Fits(u.trackedColumn, 100) && Fits(u.dbType, 50) && Fits(u.dbHost, 255)
    && Fits(u.dbUser, 100) && Fits(u.dbName, 100)
    && (u.dbPort.Set? && u.dbPort.value.Some? ==> INT32_MIN <= u.dbPort.value.value <= INT32_MAX)
  }

  /** The flush inserts one `workspace_team` row per appended user who was not on the team
   *  before, so a new member appended twice is inserted twice and breaks the table's
   *  composite primary key; a member appended again who was already on the team is kept. */
  predicate InsertsTwice(before: seq<User>, appended: seq<User>)
  {
    exists i, j :: 0 <= i < j < |appended| && appended[i] == appended[j] && appended[i] !in before
  }

  /** `db.commit()` succeeds: the payload applies, its values fit their columns, and the team
   *  rewrite inserts no association row twice. */
  predicate Commits(s: Settings, u: WorkspaceUpdate, users: seq<User>, caller: UserId)
  {
    Committable(u) && FitsColumns(u)
    && (u.teamMemberEmails.Set? ==> !InsertsTwice(s.team, TeamFor(u.teamMemberEmails.value.value, users, caller)))
  }

  /** The team after the commit, as `db.refresh` reads it back: the association rows, one per
   *  user, in the order of first appending. */
  function PersistedTeam(appended: seq<User>): (team: seq<User>)
    ensures NoDuplicates(team)
    ensures forall v :: v in team <==> v in appended
    ensures |team| <= |appended|
  {
    Dedup(appended)
  }

  /** The first phase of `update_workspace`: the columns the new data source clears. */
  function Cleared(s: Settings, source: Field<string>): Settings
  {
    var api := ClearsApi(source);
    var db := ClearsDb(source);
    s.(apiUrl := if api then None else s.apiUrl,
       isPollingActive := if source == Set(Some("CSV")) then false else s.isPollingActive,
       dbHost := if db then None else s.dbHost,
       dbPort := if db then None else s.dbPort,
       dbUser := if db then None else s.dbUser,
       dbPassword := if db then None else s.dbPassword,
       dbName := if db then None else s.dbName,
       dbQuery := if db then None else s.dbQuery)
  }

  /** The second phase: the description stamp and the team rewrite. */
  function Stamped(s: Settings, u: WorkspaceUpdate, users: seq<User>, caller: UserId, now: int): Settings
    requires Committable(u)
  {
    s.(descriptionUpdatedAt := if u.description.Set? then Some(now) else s.descriptionUpdatedAt,
       team := if u.teamMemberEmails.Set? then PersistedTeam(TeamFor(u.teamMemberEmails.value.value, users, caller)) else s.team)
  }

  /** The last phase, the `setattr` loop: every field sent is assigned. */
  function Assigned(s: Settings, u: WorkspaceUpdate): Settings
    requires Committable(u)
  {
    AssignedConnection(AssignedSource(s, u), u)
  }

  function AssignedSource(s: Settings, u: WorkspaceUpdate): Settings
    requires Committable(u)
  {
    s.(description := Assign(u.description, false, s.description),
       dataSource := Assign(u.dataSource, false, s.dataSource),
       apiUrl := Assign(u.apiUrl, false, s.apiUrl),
       pollingInterval := Assign(u.pollingInterval, false, s.pollingInterval),
       isPollingActive := if u.isPollingActive.Set? then u.isPollingActive.value.value else s.isPollingActive,
       trackedColumn := Assign(u.trackedColumn, false, s.trackedColumn))
  }

  function AssignedConnection(s: Settings, u: WorkspaceUpdate): Settings
  {
    s.(dbType := Assign(u.dbType, false, s.dbType),
       dbHost := Assign(u.dbHost, false, s.dbHost),
       dbPort := Assign(u.dbPort, false, s.dbPort),
       dbUser := Assign(u.dbUser, false, s.dbUser),
       dbPassword := Assign(u.dbPassword, false, s.dbPassword),
       dbName := Assign(u.dbName, false, s.dbName),
       dbQuery := Assign(u.dbQuery, false, s.dbQuery))
  }

  /** The settings after `update_workspace`. */
  function Updated(s: Settings, u: WorkspaceUpdate, users: seq<User>, caller: UserId, now: int): Settings
    requires Committable(u)
  {
    Assigned(Stamped(Cleared(s, u.dataSource), u, users, caller, now), u)
  }

  const NO_CHANGE: WorkspaceUpdate := WorkspaceUpdate(Unset, Unset, Unset, Unset, Unset, Unset, Unset,
                                                      Unset, Unset, Unset, Unset, Unset, Unset, Unset)

  /** An empty payload changes nothing. */
  lemma EmptyUpdateKeepsSettings(s: Settings, users: seq<User>, caller: UserId, now: int)
    ensures Updated(s, NO_CHANGE, users, caller, now) == s
  {
  }

  /** The update model declares no header fields, so no update writes the header columns:
   *  they keep whatever they held, and a workspace created without a header never gets one. */
  lemma UpdateKeepsHeader(s: Settings, u: WorkspaceUpdate, users: seq<User>, caller: UserId, now: int)
    requires Committable(u)
    ensures var r := Updated(s, u, users, caller, now);
      r.apiHeaderName == s.apiHeaderName && r.apiHeaderValue == s.apiHeaderValue
  {
  }

  /** The scheduler's view of a workspace's settings. */
  function PollRowOf(id: WorkspaceId, s: Settings, lastPolledAt: Option<int>): Polling.PollRow
  {
    Polling.PollRow(id, s.isPollingActive, s.pollingInterval, lastPolledAt, s.dataSource, s.apiUrl, s.dbHost, s.dbQuery)
  }

  /** Switching to CSV without resending connection fields or the polling flag turns polling
   *  off and leaves nothing for either fetcher. */
  lemma CsvSwitchStopsFetching(s: Settings, u: WorkspaceUpdate, users: seq<User>, caller: UserId, now: int,
                               id: WorkspaceId, lastPolledAt: Option<int>)
    requires Committable(u) && u.dataSource == Set(Some("CSV"))
    requires u.apiUrl.Unset? && u.dbHost.Unset? && u.dbQuery.Unset? && u.isPollingActive.Unset?
    ensures var r := Updated(s, u, users, caller, now);
      !r.isPollingActive && r.apiUrl.None? && r.dbHost.None? && r.dbQuery.None?
      && Polling.Dispatch(PollRowOf(id, r, lastPolledAt)).None?
  {
  }

  /** Switching to API keeps the URL and drops the database connection; switching to DB keeps
   *  the connection and drops the URL; fields sent in the same payload win over the
   *  clearing, and fields neither sent nor cleared keep their values. */
  lemma SwitchClearsOtherSource(s: Settings, u: WorkspaceUpdate, users: seq<User>, caller: UserId, now: int)
    requires Committable(u)
    ensures var r := Updated(s, u, users, caller, now);
      (u.dataSource == Set(Some("API")) ==>
        r.apiUrl == Assign(u.apiUrl, false, s.apiUrl) && (u.dbHost.Unset? ==> r.dbHost.None?)
        && (u.dbQuery.Unset? ==> r.dbQuery.None?) && r.dbType == Assign(u.dbType, false, s.dbType))
      && (u.dataSource == Set(Some("DB")) ==>
        (u.apiUrl.Unset? ==> r.apiUrl.None?) && r.dbHost == Assign(u.dbHost, false, s.dbHost)
        && r.dbQuery == Assign(u.dbQuery, false, s.dbQuery))
      && (u.apiUrl.Set? ==> r.apiUrl == u.apiUrl.value)
      && (u.dbHost.Set? ==> r.dbHost == u.dbHost.value)
      && (u.dataSource.Unset? ==>
            (r.apiUrl == Assign(u.apiUrl, false, s.apiUrl) && r.dbHost == Assign(u.dbHost, false, s.dbHost)
             && r.isPollingActive == (if u.isPollingActive.Set? then u.isPollingActive.value.value else s.isPollingActive)))
  {
  }

  /** After a valid update the team has at most two members, never the caller, each the
   *  registered user of an e-mail that was sent. */
  lemma TeamAfterUpdate(s: Settings, u: WorkspaceUpdate, users: seq<User>, caller: UserId, now: int)
    requires Committable(u) && ValidationErrors(u) == [] && u.teamMemberEmails.Set?
    ensures var r := Updated(s, u, users, caller, now);
      |r.team| <= MAX_TEAM_EMAILS && NoDuplicates(r.team)
      && forall v :: v in r.team ==> v.id != caller && v in users && v.email in u.teamMemberEmails.value.value
  {
  }

  /** One address sent twice: the commit fails unless its user is already on the team, and
   *  then the team is that one user. */
  lemma RepeatedAddress(s: Settings, u: WorkspaceUpdate, users: seq<User>, caller: UserId, now: int, e: string)
    requires Committable(u) && FitsColumns(u) && u.teamMemberEmails == Set(Some([e, e]))
    requires FirstByEmail(users, e).Some? && FirstByEmail(users, e).value.id != caller
    ensures Commits(s, u, users, caller) <==> FirstByEmail(users, e).value in s.team
    ensures Updated(s, u, users, caller, now).team == [FirstByEmail(users, e).value]
  {
    var v := FirstByEmail(users, e).value;
    assert [e, e][..1] == [e];
    assert [e][..0] == [];
    assert TeamFor([e], users, caller) == [v];
    var appended := TeamFor([e, e], users, caller);
    assert appended == [v, v];
    if v !in s.team {
      assert appended[0] == appended[1];
    }
    assert [v, v][..1] == [v];
    assert PersistedTeam(appended) == [v];
  }

  /** The rewrite loop of `update_workspace`. */
  method RewriteTeam(emails: seq<string>, users: seq<User>, caller: UserId) returns (team: seq<User>)
    ensures team == TeamFor(emails, users, caller)
  {
    team := [];
    var i := 0;
    while i < |emails|
      invariant 0 <= i <= |emails|
      invariant team == TeamFor(emails[..i], users, caller)
    {
      var user := FirstByEmail(users, emails[i]);
      if user.Some? && user.value.id != caller {
        team := team + [user.value];
      }
      assert emails[..i + 1][..i] == emails[..i];
      i := i + 1;
    }
    assert emails[..|emails|] == emails;
  }

  class Workspace {
    const id: WorkspaceId
    const ownerId: UserId
    const name: string
    var description: Option<string>
    var descriptionUpdatedAt: Option<int>
    var dataSource: Option<string>
    var apiUrl: Option<string>
    var apiHeaderName: Option<string>
    var apiHeaderValue: Option<string>
    var pollingInterval: Option<string>
    var isPollingActive: bool
    var trackedColumn: Option<string>
    var dbType: Option<string>
    var dbHost: Option<string>
    var dbPort: Option<int>
    var dbUser: Option<string>
    var dbPassword: Option<string>
    var dbName: Option<string>
    var dbQuery: Option<string>
    var team: seq<User>

    constructor (id: WorkspaceId, name: string, ownerId: UserId)
      ensures this.id == id && this.name == name && this.ownerId == ownerId
      ensures Current() == NEW_SETTINGS
    {
      this.id := id;
      this.name := name;
      this.ownerId := ownerId;
      description, descriptionUpdatedAt, dataSource, apiUrl, pollingInterval := None, None, None, None, None;
      apiHeaderName, apiHeaderValue := None, None;
      isPollingActive := false;
      trackedColumn, dbType, dbHost, dbPort, dbUser := None, None, None, None, None;
      dbPassword, dbName, dbQuery := None, None, None;
      team := [];
    }

    function Current(): Settings
      reads this
    {
      Settings(description, descriptionUpdatedAt, dataSource, apiUrl, apiHeaderName, apiHeaderValue,
               pollingInterval, isPollingActive, trackedColumn, dbType, dbHost, dbPort, dbUser, dbPassword,
               dbName, dbQuery, team)
    }

    predicate IsMember(user: UserId)
      reads this
    {
      exists i :: 0 <= i < |team| && team[i].id == user
    }

    /** The assignments of a committed `update_workspace`, in the order the handler makes them. */
    method Apply(u: WorkspaceUpdate, users: seq<User>, caller: UserId, now: int)
      requires Committable(u)
      modifies this
      ensures Current() == Updated(old(Current()), u, users, caller, now)
    {
      Clear(u.dataSource);
      Stamp(u, users, caller, now);
      AssignSent(u);
    }

    method Clear(source: Field<string>)
      modifies this
      ensures Current() == Cleared(old(Current()), source)
    {
      if source.Set? {
        var newSource := source.value;
        if newSource == Some("API") {
          ClearConnection();
        } else if newSource == Some("DB") {
          apiUrl := None;
        } else if newSource == Some("CSV") {
          apiUrl := None;
          ClearConnection();
          isPollingActive := false;
        }
      }
    }

    /** The connection columns a switch away from `DB` empties; `db_type` is kept. */
    method ClearConnection()
      modifies this
      ensures Current() == Settings(old(description), old(descriptionUpdatedAt), old(dataSource), old(apiUrl),
                                    old(apiHeaderName), old(apiHeaderValue), old(pollingInterval),
                                    old(isPollingActive), old(trackedColumn), old(dbType),
                                    None, None, None, None, None, None, old(team))
    {
      dbHost, dbPort := None, None;
      ClearCredentials();
    }

    method ClearCredentials()
      modifies this
      ensures Current() == Settings(old(description), old(descriptionUpdatedAt), old(dataSource), old(apiUrl),
                                    old(apiHeaderName), old(apiHeaderValue), old(pollingInterval),
                                    old(isPollingActive), old(trackedColumn), old(dbType), old(dbHost), old(dbPort),
                                    None, None, None, None, old(team))
    {
      dbUser, dbPassword, dbName, dbQuery := None, None, None, None;
    }

    method Stamp(u: WorkspaceUpdate, users: seq<User>, caller: UserId, now: int)
      requires Committable(u)
      modifies this
      ensures Current() == Stamped(old(Current()), u, users, caller, now)
    {
      if u.description.Set? {
        descriptionUpdatedAt := Some(now);
      }
      if u.teamMemberEmails.Set? {
        var appended := RewriteTeam(u.teamMemberEmails.value.value, users, caller);
        team := PersistedTeam(appended);
      }
    }

    /** The `setattr` loop over the fields sent. */
    method AssignSent(u: WorkspaceUpdate)
      requires Committable(u)
      modifies this
      ensures Current() == Assigned(old(Current()), u)
    {
      AssignSource(u);
      AssignConnection(u);
    }

    method AssignSource(u: WorkspaceUpdate)
      requires Committable(u)
      modifies this
      ensures Current() == AssignedSource(old(Current()), u)
    {
      description := Assign(u.description, false, description);
      dataSource := Assign(u.dataSource, false, dataSource);
      apiUrl := Assign(u.apiUrl, false, apiUrl);
      AssignPolling(u);
    }

    method AssignPolling(u: WorkspaceUpdate)
      requires Committable(u)
      modifies this
      ensures Current() == old(Current()).(
        pollingInterval := Assign(u.pollingInterval, false, old(pollingInterval)),
        isPollingActive := if u.isPollingActive.Set? then u.isPollingActive.value.value else old(isPollingActive),
        trackedColumn := Assign(u.trackedColumn, false, old(trackedColumn)))
    {
      pollingInterval := Assign(u.pollingInterval, false, pollingInterval);
      if u.isPollingActive.Set? {
        isPollingActive := u.isPollingActive.value.value;
      }
      trackedColumn := Assign(u.trackedColumn, false, trackedColumn);
    }

    method AssignConnection(u: WorkspaceUpdate)
      modifies this
      ensures Current() == AssignedConnection(old(Current()), u)
    {
      dbType := Assign(u.dbType, false, dbType);
      dbHost := Assign(u.dbHost, false, dbHost);
      dbPort := Assign(u.dbPort, false, dbPort);
      AssignCredentials(u);
    }

    method AssignCredentials(u: WorkspaceUpdate)
      modifies this
      ensures Current() == old(Current()).(dbUser := Assign(u.dbUser, false, old(dbUser)),
                                          dbPassword := Assign(u.dbPassword, false, old(dbPassword)),
                                          dbName := Assign(u.dbName, false, old(dbName)),
                                          dbQuery := Assign(u.dbQuery, false, old(dbQuery)))
    {
      dbUser := Assign(u.dbUser, false, dbUser);
      dbPassword := Assign(u.dbPassword, false, dbPassword);
      dbName := Assign(u.dbName, false, dbName);
      dbQuery := Assign(u.dbQuery, false, dbQuery);
    }
  }

  // ================================================================ the endpoints

  const INVALID_ID := "Invalid workspace ID"
  const NOT_FOUND := "Workspace not found"
  const NO_ACCESS := "Not authorized to access this workspace"
  const NO_UPDATE := "Not authorized to update this workspace"
  const TOO_MANY := "You can create a maximum of 3 workspaces."
  const INTERNAL_ERROR := "Internal Server Error"

  /** `db.query(Workspace).filter(Workspace.id == id).first()`. */
  function FindWorkspace(workspaces: seq<Workspace>, id: WorkspaceId): (r: Option<Workspace>)
    ensures r.Some? ==> r.value in workspaces && r.value.id == id
    ensures r.None? ==> forall i :: 0 <= i < |workspaces| ==> workspaces[i].id != id
  {
    if workspaces == [] then None
    else if workspaces[0].id == id then Some(workspaces[0])
    else FindWorkspace(workspaces[1..], id)
  }

  function OwnedCount(workspaces: seq<Workspace>, owner: UserId): nat
  {
    if workspaces == [] then 0
    else OwnedCount(workspaces[..|workspaces| - 1], owner) + (if workspaces[|workspaces| - 1].ownerId == owner then 1 else 0)
  }

  /** `get_workspace`: 400 for a text that is not an id, 404 for an unknown id, 403 unless
   *  the caller owns the workspace or is on its team. */
  function GetWorkspace(workspaces: seq<Workspace>, idText: string, caller: UserId): (r: Result<Workspace>)
    reads workspaces
    ensures r.Ok? ==> r.value in workspaces && ParseUuid(idText) == Some(r.value.id)
                      && (r.value.ownerId == caller || r.value.IsMember(caller))
    ensures r.Err? ==> r.status in {400, 403, 404}
    ensures r == Err(400, INVALID_ID) <==> ParseUuid(idText).None?
    ensures r == Err(404, NOT_FOUND) <==>
      ParseUuid(idText).Some? && FindWorkspace(workspaces, ParseUuid(idText).value).None?
    ensures r == Err(403, NO_ACCESS) <==>
      ParseUuid(idText).Some? && FindWorkspace(workspaces, ParseUuid(idText).value).Some?
      && var w := FindWorkspace(workspaces, ParseUuid(idText).value).value;
         w.ownerId != caller && !w.IsMember(caller)
  {
    match ParseUuid(idText)
    case None => Err(400, INVALID_ID)
    case Some(id) =>
      match FindWorkspace(workspaces, id)
      case None => Err(404, NOT_FOUND)
      case Some(w) => if w.ownerId == caller || w.IsMember(caller) then Ok(w) else Err(403, NO_ACCESS)
  }

  /** The checks of `update_workspace` in order: the payload validators (422), the id (400),
   *  the lookup (404), ownership (403), and the commit (500). */
  function UpdateCheck(workspaces: seq<Workspace>, users: seq<User>, idText: string, u: WorkspaceUpdate, caller: UserId): Result<Workspace>
    reads workspaces
  {
    var errors := ValidationErrors(u);
    if errors != [] then Err(422, errors[0])
    else
      match ParseUuid(idText)
      case None => Err(400, INVALID_ID)
      case Some(id) =>
        match FindWorkspace(workspaces, id)
        case None => Err(404, NOT_FOUND)
        case Some(w) =>
          if w.ownerId != caller then Err(403, NO_UPDATE)
          else if !Commits(w.Current(), u, users, caller) then Err(500, INTERNAL_ERROR)
          else Ok(w)
  }

  /** Only the owner updates, and whoever may update may also read. */
  lemma UpdateImpliesAccess(workspaces: seq<Workspace>, users: seq<User>, idText: string, u: WorkspaceUpdate, caller: UserId)
    ensures UpdateCheck(workspaces, users, idText, u, caller).Ok? <==>
      ValidationErrors(u) == [] && ParseUuid(idText).Some?
      && FindWorkspace(workspaces, ParseUuid(idText).value).Some?
      && FindWorkspace(workspaces, ParseUuid(idText).value).value.ownerId == caller
      && Commits(FindWorkspace(workspaces, ParseUuid(idText).value).value.Current(), u, users, caller)
    ensures UpdateCheck(workspaces, users, idText, u, caller).Ok? ==>
      GetWorkspace(workspaces, idText, caller) == UpdateCheck(workspaces, users, idText, u, caller)
  {
    var r := UpdateCheck(workspaces, users, idText, u, caller);
    if r.Ok? {
      var w := FindWorkspace(workspaces, ParseUuid(idText).value).value;
      assert r == Ok(w) && w.ownerId == caller;
    }
  }

  /** A trend point: the upload's time and the mean of the column, if recorded. */
  datatype TrendPoint = TrendPoint(date: int, value: Option<Json>)

  /** `upload.analysis_results["summary_stats"][column]["mean"]`, with `None` wherever the
   *  lookup raises `TypeError` or `KeyError`. */
  function MeanOf(u: Upload, column: string): (r: Option<Json>)
    ensures r.Some? ==> (u.analysisResults.Some?
      && exists fields :: Get(u.analysisResults.value.summaryStats, column) == Some(JObject(fields))
                         && Get(fields, "mean") == r && r != Some(JNull))
  {
    match u.analysisResults
    case None => None
    case Some(results) =>
      match Get(results.summaryStats, column)
      case Some(JObject(fields)) => if Get(fields, "mean") == Some(JNull) then None else Get(fields, "mean")
      case _ => None
  }

  /** The uploads of one workspace and type, in stored order. */
  function UploadsOfType(uploads: seq<Upload>, ws: WorkspaceId, uploadType: string): (r: seq<Upload>)
    ensures forall x :: x in r <==> x in uploads && x.workspaceId == ws && x.uploadType == uploadType
  {
    if uploads == [] then []
    else
      var init := uploads[..|uploads| - 1];
      var last := uploads[|uploads| - 1];
      assert uploads == init + [last];
      UploadsOfType(init, ws, uploadType) + (if last.workspaceId == ws && last.uploadType == uploadType then [last] else [])
  }

  function Trend(uploads: seq<Upload>, column: string): (r: seq<TrendPoint>)
    ensures |r| == |uploads|
    ensures forall i :: 0 <= i < |uploads| ==> r[i] == TrendPoint(uploads[i].uploadedAt, MeanOf(uploads[i], column))
  {
    if uploads == [] then []
    else Trend(uploads[..|uploads| - 1], column) + [TrendPoint(uploads[|uploads| - 1].uploadedAt, MeanOf(uploads[|uploads| - 1], column))]
  }

  /** The uploads a trend is drawn from, oldest first. */
  function TrendUploads(uploads: seq<Upload>, ws: WorkspaceId, uploadType: string): seq<Upload>
  {
    Sorting.SortAsc(UploadsOfType(uploads, ws, uploadType), Snapshots.UploadTime)
  }

  /** One point per upload of the workspace and type, oldest first. */
  lemma TrendInOrder(uploads: seq<Upload>, ws: WorkspaceId, uploadType: string, column: string)
    ensures var sorted := TrendUploads(uploads, ws, uploadType);
      var points := Trend(sorted, column);
      |points| == |UploadsOfType(uploads, ws, uploadType)|
      && multiset(sorted) == multiset(UploadsOfType(uploads, ws, uploadType))
      && (forall i, j :: 0 <= i < j < |points| ==> points[i].date <= points[j].date)
      && forall i :: 0 <= i < |points| ==>
           (sorted[i] in uploads && sorted[i].workspaceId == ws
            && sorted[i].uploadType == uploadType && points[i].value == MeanOf(sorted[i], column))
  {
    var sorted := TrendUploads(uploads, ws, uploadType);
    TrendOfSorted(sorted, column);
    SameElements(sorted, UploadsOfType(uploads, ws, uploadType));
  }

  /** The points of uploads sorted by time are in date order. */
  lemma TrendOfSorted(sorted: seq<Upload>, column: string)
    requires Sorting.SortedAsc(sorted, Snapshots.UploadTime)
    ensures var points := Trend(sorted, column);
      forall i, j :: 0 <= i < j < |points| ==> points[i].date <= points[j].date
  {
    var points := Trend(sorted, column);
    forall i, j | 0 <= i < j < |points|
      ensures points[i].date <= points[j].date
    {
      assert Snapshots.UploadTime(sorted[i]) <= Snapshots.UploadTime(sorted[j]);
    }
  }

  /** A permutation holds only elements of the original. */
  lemma SameElements(a: seq<Upload>, b: seq<Upload>)
    requires multiset(a) == multiset(b)
    ensures forall i :: 0 <= i < |a| ==> a[i] in b
  {
    forall i | 0 <= i < |a|
      ensures a[i] in b
    {
      assert a[i] in multiset(b);
    }
  }

  method TrendPoints(sorted: seq<Upload>, column: string) returns (points: seq<TrendPoint>)
    ensures points == Trend(sorted, column)
  {
    points := [];
    var i := 0;
    while i < |sorted|
      invariant 0 <= i <= |sorted|
      invariant points == Trend(sorted[..i], column)
    {
      var value: Option<Json> := None;
      var results := sorted[i].analysisResults;
      if results.Some? {
        var stats := Get(results.value.summaryStats, column);
        if stats.Some? && stats.value.JObject? {
          var mean := Get(stats.value.fields, "mean");
          if mean.Some? && mean.value != JNull {
            value := mean;
          }
        }
      }
      points := points + [TrendPoint(sorted[i].uploadedAt, value)];
      assert sorted[..i + 1][..i] == sorted[..i];
      i := i + 1;
    }
    assert sorted[..|sorted|] == sorted;
  }

  class WorkspaceDb {
    var workspaces: seq<Workspace>
    var users: seq<User>
    var uploads: seq<Upload>

    constructor (users: seq<User>, uploads: seq<Upload>)
      ensures workspaces == [] && this.users == users && this.uploads == uploads
    {
      workspaces := [];
      this.users := users;
      this.uploads := uploads;
    }

    /** `create_workspace`: refused with 400 once the caller owns three workspaces. */
    method CreateWorkspace(name: string, caller: UserId, newId: WorkspaceId) returns (r: Result<Workspace>)
      requires FindWorkspace(workspaces, newId).None?
      modifies this
      ensures users == old(users) && uploads == old(uploads)
      ensures OwnedCount(old(workspaces), caller) >= MAX_WORKSPACES ==>
        r == Err(400, TOO_MANY) && workspaces == old(workspaces)
      ensures OwnedCount(old(workspaces), caller) < MAX_WORKSPACES ==>
        r.Ok? && fresh(r.value) && workspaces == old(workspaces) + [r.value]
        && r.value.id == newId && r.value.ownerId == caller && r.value.name == name
        && r.value.Current() == NEW_SETTINGS
      ensures OwnedCount(old(workspaces), caller) <= MAX_WORKSPACES ==> OwnedCount(workspaces, caller) <= MAX_WORKSPACES
    {
      var count := OwnedCount(workspaces, caller);
      if count >= MAX_WORKSPACES {
        return Err(400, TOO_MANY);
      }
      var w := new Workspace(newId, name, caller);
      workspaces := workspaces + [w];
      assert workspaces[..|workspaces| - 1] == old(workspaces);
      r := Ok(w);
    }

    /** `update_workspace`: the checks of `UpdateCheck`, then the assignments of `Updated` on
     *  the one workspace found; nothing changes when a check fails. */
    method UpdateWorkspace(idText: string, u: WorkspaceUpdate, caller: UserId, now: int) returns (r: Result<Workspace>)
      modifies workspaces
      ensures r == old(UpdateCheck(workspaces, users, idText, u, caller))
      ensures r.Ok? ==> r.value in old(workspaces) && Committable(u)
      ensures r.Ok? ==> r.value.Current() == Updated(old(r.value.Current()), u, users, caller, now)
      ensures forall w :: w in workspaces && !(r.Ok? && w == r.value) ==> w.Current() == old(w.Current())
    {
      var errors := ValidationErrors(u);
      if errors != [] {
        return Err(422, errors[0]);
      }
      var id := ParseUuid(idText);
      if id.None? {
        return Err(400, INVALID_ID);
      }
      var found := FindWorkspace(workspaces, id.value);
      if found.None? {
        return Err(404, NOT_FOUND);
      }
      var w := found.value;
      if w.ownerId != caller {
        return Err(403, NO_UPDATE);
      }
      if !Commits(w.Current(), u, users, caller) {
        return Err(500, INTERNAL_ERROR);
      }
      w.Apply(u, users, caller, now);
      r := Ok(w);
    }

    /** `get_trend_data`: the access check of `get_workspace`, then one point per upload of
     *  the type, oldest first. */
    method GetTrendData(idText: string, column: string, uploadType: string, caller: UserId)
      returns (r: Result<seq<TrendPoint>>)
      ensures var access := GetWorkspace(workspaces, idText, caller);
        (access.Err? ==> r == Err(access.status, access.detail))
        && (access.Ok? ==> r == Ok(Trend(TrendUploads(uploads, access.value.id, uploadType), column)))
    {
      var access := GetWorkspace(workspaces, idText, caller);
      if access.Err? {
        return Err(access.status, access.detail);
      }
      var sorted := Sorting.SortAsc(UploadsOfType(uploads, access.value.id, uploadType), Snapshots.UploadTime);
      var points := TrendPoints(sorted, column);
      r := Ok(points);
    }
  }
}
