/** The smart alerts card of a workspace (frontend/src/pages/WorkSpaceDetail/AlertsCard.tsx):
 *  how a rule's condition is displayed, and deleting a rule with the list put back when the
 *  backend refuses. */
module AlertsCard {
  import opened Common

  /** `word.charAt(0).toUpperCase() + word.slice(1)`. */
  function Capitalize(word: string): (r: string)
    ensures |r| == |word|
  {
    if word == [] then [] else [AsciiUpper(word[0])] + word[1..]
  }

  function CapitalizeAll(words: seq<string>): (r: seq<string>)
    ensures |r| == |words|
    ensures forall k :: 0 <= k < |r| ==> r[k] == Capitalize(words[k])
  {
    if words == [] then [] else [Capitalize(words[0])] + CapitalizeAll(words[1..])
  }

  /** `formatCondition`: split on `_`, capitalise each piece, join with spaces. */
  function FormatCondition(cond: string): string
  {
    Join(CapitalizeAll(Split(cond, '_')), " ")
  }

  /** The same text written character by character: an underscore becomes a space, the
   *  first character of the text and every character after an underscore is upper-cased,
   *  and every other character is kept. `atStart` says whether the next character begins a
   *  word. */
  function Titled(cond: string, atStart: bool): (r: string)
    ensures |r| == |cond|
  {
    if cond == [] then []
    else
      var c := cond[0];
      [if c == '_' then ' ' else if atStart then AsciiUpper(c) else c] + Titled(cond[1..], c == '_')
  }

  /** Joining after a common prefix of the first piece. */
  lemma JoinPrefix(a: string, b: string, rest: seq<string>, sep: string)
    ensures Join([a + b] + rest, sep) == a + Join([b] + rest, sep)
  {
    if rest != [] {
      assert ([a + b] + rest)[1..] == rest && ([b] + rest)[1..] == rest;
    }
  }

  /** `formatCondition` agrees with the character-by-character description; the second half
   *  covers a text whose first piece is kept as it is. */
  lemma {:induction false} FormatIsTitled(cond: string)
    ensures Join(CapitalizeAll(Split(cond, '_')), " ") == Titled(cond, true)
    ensures var pieces := Split(cond, '_');
      Join([pieces[0]] + CapitalizeAll(pieces[1..]), " ") == Titled(cond, false)
  {
    if cond != [] {
      var rest := Split(cond[1..], '_');
      FormatIsTitled(cond[1..]);
      var tail := CapitalizeAll(rest);
      if cond[0] == '_' {
        assert Split(cond, '_') == [[]] + rest;
        assert CapitalizeAll([[]] + rest) == [[]] + tail;
        assert ([[]] + rest)[1..] == rest;
        assert Join([[]] + tail, " ") == " " + Join(tail, " ");
      } else {
        var c := cond[0];
        var pieces := [[c] + rest[0]] + rest[1..];
        assert Split(cond, '_') == pieces;
        assert pieces[1..] == rest[1..];
        assert tail == [Capitalize(rest[0])] + CapitalizeAll(rest[1..]);
        assert Capitalize([c] + rest[0]) == [AsciiUpper(c)] + rest[0];
        assert CapitalizeAll(pieces) == [[AsciiUpper(c)] + rest[0]] + CapitalizeAll(rest[1..]);
        JoinPrefix([AsciiUpper(c)], rest[0], CapitalizeAll(rest[1..]), " ");
        JoinPrefix([c], rest[0], CapitalizeAll(rest[1..]), " ");
      }
    }
  }

  lemma {:induction false} TitledNoUnderscore(cond: string, atStart: bool)
    ensures '_' !in Titled(cond, atStart)
    ensures forall i :: 0 <= i < |cond| ==> (Titled(cond, atStart)[i] == ' ' <==> cond[i] == '_' || cond[i] == ' ')
  {
    if cond != [] {
      TitledNoUnderscore(cond[1..], cond[0] == '_');
    }
  }

  /** The displayed condition has the input's length, no underscore, a space exactly where
   *  the input had an underscore (for an input without spaces), and so one word per piece;
   *  only the first letter of each piece changes case. */
  lemma FormatConditionMeaning(cond: string)
    requires ' ' !in cond
    ensures |FormatCondition(cond)| == |cond| && '_' !in FormatCondition(cond)
    ensures forall i :: 0 <= i < |cond| ==> (FormatCondition(cond)[i] == ' ' <==> cond[i] == '_')
    ensures |Split(FormatCondition(cond), ' ')| == |Split(cond, '_')|
  {
    FormatIsTitled(cond);
    TitledNoUnderscore(cond, true);
    SplitCount(FormatCondition(cond), ' ');
    SplitCount(cond, '_');
    SameCount(FormatCondition(cond), cond);
  }

  /** Two texts with a space in one exactly where the other has an underscore have as many
   *  of each. */
  lemma {:induction false} SameCount(r: string, s: string)
    requires |r| == |s|
    requires forall i :: 0 <= i < |s| ==> (r[i] == ' ' <==> s[i] == '_')
    ensures Count(r, ' ') == Count(s, '_')
  {
    if s != [] {
      SameCount(r[1..], s[1..]);
    }
  }

  /** The character the displayed text has at each position. */
  lemma {:induction false} TitledAt(cond: string, atStart: bool, i: nat)
    requires i < |cond|
    ensures Titled(cond, atStart)[i] ==
      if cond[i] == '_' then ' '
      else if (if i == 0 then atStart else cond[i - 1] == '_') then AsciiUpper(cond[i])
      else cond[i]
    decreases i
  {
    if i > 0 {
      TitledAt(cond[1..], cond[0] == '_', i - 1);
    }
  }

  /** The displayed character at position `i` of a condition. */
  function TitledChar(cond: string, i: nat): char
    requires i < |cond|
  {
    if cond[i] == '_' then ' '
    else if i == 0 || cond[i - 1] == '_' then AsciiUpper(cond[i])
    else cond[i]
  }

  /** A condition is displayed as a text when that text agrees with it character by character. */
  lemma ShownAs(cond: string, shown: string)
    requires |shown| == |cond|
    requires forall i :: 0 <= i < |cond| ==> shown[i] == TitledChar(cond, i)
    ensures FormatCondition(cond) == shown
  {
    FormatIsTitled(cond);
    forall i | 0 <= i < |cond|
      ensures Titled(cond, true)[i] == shown[i]
    {
      TitledAt(cond, true, i);
    }
  }

  /** The two conditions the alert form offers. */
  lemma GreaterThanShown()
    ensures FormatCondition("greater_than") == "Greater Than"
  {
    ShownAs("greater_than", "Greater Than");
  }

  lemma LessThanShown()
    ensures FormatCondition("less_than") == "Less Than"
  {
    ShownAs("less_than", "Less Than");
  }

  // ---------------------------------------------------------------- the card

  datatype AlertRule = AlertRule(id: string, columnName: string, metric: string, condition: string, value: real)

  /** `prev.filter(r => r.id !== ruleId)`. */
  function WithoutRule(rules: seq<AlertRule>, ruleId: string): (r: seq<AlertRule>)
    ensures forall x :: x in r <==> x in rules && x.id != ruleId
  {
    RejectMember(rules, (x: AlertRule) => x.id == ruleId);
    Reject(rules, (x: AlertRule) => x.id == ruleId)
  }

  /** Every rule with the id goes and the others keep their order. */
  lemma DeleteKeepsOrder(before: seq<AlertRule>, rule: AlertRule, after: seq<AlertRule>)
    ensures WithoutRule(before + [rule] + after, rule.id) == WithoutRule(before, rule.id) + WithoutRule(after, rule.id)
  {
    var drop := (x: AlertRule) => x.id == rule.id;
    RejectAppend(before + [rule], after, drop);
    RejectAppend(before, [rule], drop);
  }

  class RulesList {
    var rules: seq<AlertRule>

    constructor (rules: seq<AlertRule>)
      ensures this.rules == rules
    {
      this.rules := rules;
    }

    /** `handleDeleteRule`: the rule leaves the list at once and the old list comes back
     *  when the request fails (`deleted` is whether it succeeded). */
    method DeleteRule(ruleId: string, deleted: bool)
      modifies this
      ensures deleted ==> rules == WithoutRule(old(rules), ruleId)
      ensures !deleted ==> rules == old(rules)
    {
      var originalRules := rules;
      rules := WithoutRule(rules, ruleId);
      if !deleted {
        rules := originalRules;
      }
    }
  }
}
