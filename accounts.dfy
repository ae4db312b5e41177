/** The account page (frontend/src/pages/Accounts.tsx): the device label shown for each
 *  login in the history, the last use of a sign-in provider, and the e-mail confirmation
 *  that guards account deletion. */
module Accounts {
  import opened Common

  // ---------------------------------------------------------------- user agents

  /** A regular expression of the classifier: one of several literal alternatives, or a
   *  literal that no later `later` follows on the same line (`pattern(?!.*later)`). */
  datatype Matcher = AnyOf(alternatives: seq<string>) | NotFollowedBy(pattern: string, later: string)

  datatype Rule = Rule(name: string, matcher: Matcher)

  /** `later` occurs at or after `from` with no line terminator in between (what `.*later`
   *  matches, as `.` stops at line terminators). */
  predicate FollowedOnLine(ua: string, from: nat, later: string)
  {
    exists k :: from <= k < |ua| + 1 && OccursAt(ua, later, k)
      && forall m :: from <= m < k ==> !JsIsLineTerminator(ua[m])
  }

  /** `reg.test(ua)`. */
  predicate Matches(m: Matcher, ua: string)
  {
    match m
    case AnyOf(alternatives) => exists k :: 0 <= k < |alternatives| && Contains(ua, alternatives[k])
    case NotFollowedBy(pattern, later) =>
      exists i :: 0 <= i < |ua| + 1 && OccursAt(ua, pattern, i) && !FollowedOnLine(ua, i + |pattern|, later)
  }

  /** The browsers in the order they are tried, Chromium derivatives before Chrome. */
  const BROWSERS: seq<Rule> := [
    Rule("Edge", AnyOf(["Edg/", "EdgA/", "EdgiOS/"])),
    Rule("Brave", AnyOf(["Brave/"])),
    Rule("Opera", AnyOf(["OPR/", "Opera/"])),
    Rule("Arc", AnyOf(["Arc/"])),
    Rule("Vivaldi", AnyOf(["Vivaldi/"])),
    Rule("Samsung Internet", AnyOf(["SamsungBrowser/"])),
    Rule("DuckDuckGo", AnyOf(["DuckDuckGo/"])),
    Rule("UC Browser", AnyOf(["UCBrowser/"])),
    Rule("Firefox", AnyOf(["Firefox/", "FxiOS/"])),
    Rule("Chrome", AnyOf(["Chrome/", "CriOS/"])),
    Rule("Safari", NotFollowedBy("Safari/", "Chrome")),
    Rule("Internet Explorer", AnyOf(["MSIE ", "Trident/"]))]

  /** The operating systems in the order they are tried. */
  const SYSTEMS: seq<Rule> := [
    Rule("Windows", AnyOf(["Windows NT"])),
    Rule("macOS", AnyOf(["Macintosh"])),
    Rule("ChromeOS", AnyOf(["CrOS"])),
    Rule("Linux", AnyOf(["Linux"])),
    Rule("Android", AnyOf(["Android"])),
    Rule("iOS", AnyOf(["iPhone", "iPad", "iPod"]))]

  /** `rules.find(r => r.reg.test(ua))`: the position of the first rule that matches. */
  function FirstMatch(rules: seq<Rule>, ua: string): (r: Option<nat>)
    ensures r.Some? ==> r.value < |rules| && Matches(rules[r.value].matcher, ua)
    ensures r.Some? ==> forall j :: 0 <= j < r.value ==> !Matches(rules[j].matcher, ua)
    ensures r.None? ==> forall j :: 0 <= j < |rules| ==> !Matches(rules[j].matcher, ua)
  {
    if rules == [] then None
    else if Matches(rules[0].matcher, ua) then Some(0)
    else
      match FirstMatch(rules[1..], ua)
      case None => None
      case Some(k) => Some(k + 1)
  }

  /** The first matching rule's name, or the fallback. */
  function FirstName(rules: seq<Rule>, ua: string, fallback: string): string
  {
    match FirstMatch(rules, ua)
    case None => fallback
    case Some(k) => rules[k].name
  }

  function Browser(ua: string): string
  {
    FirstName(BROWSERS, ua, "Browser")
  }

  function OperatingSystem(ua: string): string
  {
    FirstName(SYSTEMS, ua, "Other OS")
  }

  const UNKNOWN_DEVICE := "Unknown Device"

  /** `parseUA`: a missing, empty or `"unknown"` agent is an unknown device; any other is
   *  described as its browser on its operating system. */
  function ParseUA(ua: Option<string>): (r: string)
    ensures ua.None? || ua.value == [] || ua.value == "unknown" ==> r == UNKNOWN_DEVICE
    ensures ua.Some? && ua.value != [] && ua.value != "unknown" ==>
      r == Browser(ua.value) + " on " + OperatingSystem(ua.value)
  {
    if ua.None? || ua.value == [] || ua.value == "unknown" then UNKNOWN_DEVICE
    else Browser(ua.value) + " on " + OperatingSystem(ua.value)
  }

  /** A one-alternative pattern is a substring test. */
  lemma MatchesOne(p: string, ua: string)
    ensures Matches(AnyOf([p]), ua) <==> Contains(ua, p)
  {
    if Contains(ua, p) {
      assert Contains(ua, [p][0]);
    }
  }

  /** A literal with a character the text lacks does not occur in it. */
  lemma Absent(t: string, pat: string, k: nat)
    requires k < |pat| && pat[k] !in t
    ensures !Contains(t, pat)
  {
    ContainsIff(t, pat);
  }

  /** Edge identifies itself with `Chrome/` too; it is still reported as Edge. */
  lemma EdgeBeforeChrome(ua: string)
    requires Contains(ua, "Edg/")
    ensures Browser(ua) == "Edge"
  {
    assert Matches(BROWSERS[0].matcher, ua) by {
      assert Contains(ua, BROWSERS[0].matcher.alternatives[0]);
    }
  }

  /** An agent that names Chrome is never reported as Safari or Internet Explorer, although
   *  Chrome's agent also carries `Safari/`. */
  lemma ChromeIsNeverSafari(ua: string)
    requires Contains(ua, "Chrome/")
    ensures Browser(ua) != "Safari" && Browser(ua) != "Internet Explorer"
    ensures Browser(ua) in {"Edge", "Brave", "Opera", "Arc", "Vivaldi", "Samsung Internet",
                            "DuckDuckGo", "UC Browser", "Firefox", "Chrome"}
  {
    assert Matches(BROWSERS[9].matcher, ua) by {
      assert Contains(ua, BROWSERS[9].matcher.alternatives[0]);
    }
    var k := FirstMatch(BROWSERS, ua).value;
    assert k <= 9;
    var name := BROWSERS[k].name;
    assert Browser(ua) == name;
    if k < 5 {
      assert name in {"Edge", "Brave", "Opera", "Arc", "Vivaldi"};
    } else {
      assert name in {"Samsung Internet", "DuckDuckGo", "UC Browser", "Firefox", "Chrome"};
    }
  }

  /** Without `Chrome` anywhere, the Safari rule is just the presence of `Safari/`. */
  lemma SafariRuleWithoutChrome(ua: string)
    requires !Contains(ua, "Chrome")
    ensures Matches(BROWSERS[10].matcher, ua) <==> Contains(ua, "Safari/")
  {
    ContainsIff(ua, "Safari/");
    ContainsIff(ua, "Chrome");
    if Contains(ua, "Safari/") {
      var i :| OccursAt(ua, "Safari/", i);
      assert !FollowedOnLine(ua, i + 7, "Chrome");
    }
  }

  /** An agent whose every `Safari/` is followed by `Chrome` on its line is not Safari. */
  lemma ChromeAfterSafariIsNotSafari(ua: string)
    requires forall i :: 0 <= i < |ua| + 1 && OccursAt(ua, "Safari/", i) ==> FollowedOnLine(ua, i + 7, "Chrome")
    ensures Browser(ua) != "Safari"
  {
    assert !Matches(BROWSERS[10].matcher, ua);
  }

  // ---------------------------------------------------------------- the Android finding

  /** Every Android browser's agent carries `Linux; Android`; with `Linux` tried first, such
   *  a device is reported as Linux and the Android entry is never chosen for it. */
  lemma AndroidReportedAsLinux(ua: string)
    requires Contains(ua, "Linux; Android")
    requires !Contains(ua, "Windows NT") && !Contains(ua, "Macintosh") && !Contains(ua, "CrOS")
    ensures OperatingSystem(ua) == "Linux"
  {
    AndroidContainsLinux(ua);
    MatchesOne("Windows NT", ua);
    MatchesOne("Macintosh", ua);
    MatchesOne("CrOS", ua);
    MatchesOne("Linux", ua);
    FirstMatchAt(SYSTEMS, ua, 3);
  }

  lemma AndroidContainsLinux(ua: string)
    requires Contains(ua, "Linux; Android")
    ensures Contains(ua, "Linux")
  {
    ContainsIff(ua, "Linux; Android");
    var i :| OccursAt(ua, "Linux; Android", i);
    assert ua[i..i + 14][..5] == ua[i..i + 5];
    assert OccursAt(ua, "Linux", i);
    ContainsIff(ua, "Linux");
  }

  /** One such agent, in the form current Android browsers send. */
  const ANDROID_AGENT := "Mozilla/5.0 (Linux; Android 14)"

  lemma AndroidAgentIsLinux()
    ensures OperatingSystem(ANDROID_AGENT) == "Linux"
  {
    AndroidAgentNamesLinux();
    AndroidAgentNamesNoOtherSystem();
    AndroidReportedAsLinux(ANDROID_AGENT);
  }

  lemma AndroidAgentNamesLinux()
    ensures Contains(ANDROID_AGENT, "Linux; Android")
  {
    assert OccursAt(ANDROID_AGENT, "Linux; Android", 13);
    ContainsIff(ANDROID_AGENT, "Linux; Android");
  }

  lemma AndroidAgentNamesNoOtherSystem()
    ensures !Contains(ANDROID_AGENT, "Windows NT") && !Contains(ANDROID_AGENT, "Macintosh")
    ensures !Contains(ANDROID_AGENT, "CrOS")
  {
    NotInAgent("Windows NT", 0);
    NotInAgent("Macintosh", 8);
    NotInAgent("CrOS", 0);
  }

  lemma NotInAgent(pat: string, k: nat)
    requires k < |pat| && pat[k] in {'W', 'h', 'C'}
    ensures !Contains(ANDROID_AGENT, pat)
  {
    var agent := ANDROID_AGENT;
    assert forall i :: 0 <= i < |agent| ==> agent[i] !in {'W', 'h', 'C'};
    Absent(agent, pat, k);
  }

  /** The operating systems with Android tried before Linux. */
  const SYSTEMS_ANDROID_FIRST: seq<Rule> := [
    Rule("Windows", AnyOf(["Windows NT"])),
    Rule("macOS", AnyOf(["Macintosh"])),
    Rule("ChromeOS", AnyOf(["CrOS"])),
    Rule("Android", AnyOf(["Android"])),
    Rule("Linux", AnyOf(["Linux"])),
    Rule("iOS", AnyOf(["iPhone", "iPad", "iPod"]))]

  function OperatingSystemAndroidFirst(ua: string): string
  {
    FirstName(SYSTEMS_ANDROID_FIRST, ua, "Other OS")
  }

  /** With Android tried first, Android devices are reported as Android, and every agent
   *  without `Android` gets the same answer as before. */
  lemma AndroidFirstIsIntended(ua: string)
    ensures (Contains(ua, "Android") && !Contains(ua, "Windows NT") && !Contains(ua, "Macintosh")
             && !Contains(ua, "CrOS")) ==> OperatingSystemAndroidFirst(ua) == "Android"
    ensures !Contains(ua, "Android") ==> OperatingSystemAndroidFirst(ua) == OperatingSystem(ua)
  {
    if Contains(ua, "Android") && !Contains(ua, "Windows NT") && !Contains(ua, "Macintosh") && !Contains(ua, "CrOS") {
      AndroidFirstFindsAndroid(ua);
    }
    if !Contains(ua, "Android") {
      AndroidFirstKeepsOthers(ua);
    }
  }

  lemma AndroidFirstFindsAndroid(ua: string)
    requires Contains(ua, "Android")
    requires !Contains(ua, "Windows NT") && !Contains(ua, "Macintosh") && !Contains(ua, "CrOS")
    ensures OperatingSystemAndroidFirst(ua) == "Android"
  {
    MatchesOne("Windows NT", ua);
    MatchesOne("Macintosh", ua);
    MatchesOne("CrOS", ua);
    MatchesOne("Android", ua);
    FirstMatchAt(SYSTEMS_ANDROID_FIRST, ua, 3);
  }

  lemma AndroidFirstKeepsOthers(ua: string)
    requires !Contains(ua, "Android")
    ensures OperatingSystemAndroidFirst(ua) == OperatingSystem(ua)
  {
    MatchesOne("Android", ua);
    var rules := SYSTEMS_ANDROID_FIRST;
    assert forall j :: 0 <= j < 3 ==> rules[j] == SYSTEMS[j];
    assert rules[3] == SYSTEMS[4] && rules[4] == SYSTEMS[3] && rules[5] == SYSTEMS[5];
    match FirstMatch(SYSTEMS, ua)
    case None =>
      assert forall j :: 0 <= j < |rules| ==> !Matches(rules[j].matcher, ua);
    case Some(k) =>
      if k < 3 {
        FirstMatchAt(rules, ua, k);
      } else if k == 3 {
        FirstMatchAt(rules, ua, 4);
      } else {
        assert k == 5;
        FirstMatchAt(rules, ua, 5);
      }
  }

  /** The first rule that matches is found. */
  lemma FirstMatchAt(rules: seq<Rule>, ua: string, k: nat)
    requires k < |rules| && Matches(rules[k].matcher, ua)
    requires forall j :: 0 <= j < k ==> !Matches(rules[j].matcher, ua)
    ensures FirstMatch(rules, ua) == Some(k)
  {
  }

  // ---------------------------------------------------------------- login history

  datatype LoginHistory = LoginHistory(id: string, provider: string, ipAddress: string, userAgent: string, createdAt: string)

  datatype UserProfile = UserProfile(email: string, loginHistory: Option<seq<LoginHistory>>)

  /** The position of the first entry of that provider. */
  function FirstOfProvider(history: seq<LoginHistory>, provider: string): (r: Option<nat>)
    ensures r.Some? ==> r.value < |history| && history[r.value].provider == provider
    ensures r.Some? ==> forall j :: 0 <= j < r.value ==> history[j].provider != provider
    ensures r.None? ==> forall j :: 0 <= j < |history| ==> history[j].provider != provider
  {
    if history == [] then None
    else if history[0].provider == provider then Some(0)
    else
      match FirstOfProvider(history[1..], provider)
      case None => None
      case Some(k) => Some(k + 1)
  }

  /** `getLastUsed`: the time of the first logged sign-in with that provider, if any. */
  function LastUsed(user: Option<UserProfile>, provider: string): (r: Option<string>)
    ensures r.Some? <==> user.Some? && user.value.loginHistory.Some?
                         && exists i :: 0 <= i < |user.value.loginHistory.value|
                                        && user.value.loginHistory.value[i].provider == provider
    ensures r.Some? ==> exists i :: 0 <= i < |user.value.loginHistory.value|
                                    && user.value.loginHistory.value[i].provider == provider
                                    && r.value == user.value.loginHistory.value[i].createdAt
                                    && forall j :: 0 <= j < i ==> user.value.loginHistory.value[j].provider != provider
  {
    if user.None? || user.value.loginHistory.None? then None
    else
      match FirstOfProvider(user.value.loginHistory.value, provider)
      case None => None
      case Some(k) => Some(user.value.loginHistory.value[k].createdAt)
  }

  // ---------------------------------------------------------------- deleting the account

  /** What `processDelete` leads to: `deleted` is whether the API call succeeded. */
  datatype DeleteOutcome = Mismatch | Deleted | Failed

  function ProcessDelete(confirmEmail: string, user: Option<UserProfile>, deleted: bool): (r: DeleteOutcome)
    ensures r == Mismatch <==> user.None? || user.value.email != confirmEmail
    ensures r == Deleted <==> user.Some? && user.value.email == confirmEmail && deleted
  {
    if user.None? || confirmEmail != user.value.email then Mismatch
    else if deleted then Deleted
    else Failed
  }

  /** Without a signed-in user no typed text confirms deletion, and with one only the exact
   *  address does. */
  lemma OnlyOwnAddressDeletes(confirmEmail: string, user: Option<UserProfile>, deleted: bool)
    requires ProcessDelete(confirmEmail, user, deleted) != Mismatch
    ensures user.Some? && confirmEmail == user.value.email
  {
  }
}
