/** The permission evaluator and its persisted grants (internal/permission). */
module Permission {
  import opened Options
  import opened Text

  /** Anything else a file may say is kept as it is. */
  datatype Decision = Allow | Ask | Deny | Unknown(text: string)

  datatype Rule = Rule(tool: string, pattern: string, decision: Decision)

  // ---------------------------------------------------------------- matching (policy.go)

  predicate MatchesTool(r: Rule, tool: string) {
    if !Contains(r.tool, "*") then r.tool == tool else HasPrefix(tool, TrimSuffix(r.tool, "*"))
  }

  predicate CatchAll(r: Rule) { r.pattern == "" || r.pattern == "*" }

  predicate MatchesSubject(r: Rule, subject: string) {
    CatchAll(r) ||
    if HasSuffix(r.pattern, "*") then HasPrefix(subject, TrimSuffix(r.pattern, "*")) else r.pattern == subject
  }

  predicate Matches(r: Rule, tool: string, subject: string) { MatchesTool(r, tool) && MatchesSubject(r, subject) }

  function Specificity(r: Rule): int {
    if Contains(r.tool, "*") then 1 else if CatchAll(r) then 2 else 3
  }

  // ---------------------------------------------------------------- the rule that decides

  /** Rule i matches, no matching rule is more specific, and no later matching rule is as specific. */
  ghost predicate Decides(rules: seq<Rule>, i: nat, tool: string, subject: string) {
    i < |rules| && Matches(rules[i], tool, subject) &&
    forall j | 0 <= j < |rules| && Matches(rules[j], tool, subject) ::
      Specificity(rules[j]) <= Specificity(rules[i]) && (Specificity(rules[j]) == Specificity(rules[i]) ==> j <= i)
  }

  /** The deciding rule's index, or -1 without a matching rule. */
  function Winner(rules: seq<Rule>, tool: string, subject: string): (w: int)
    ensures -1 <= w < |rules|
  {
    if rules == [] then -1
    else
      var front, r := rules[..|rules| - 1], rules[|rules| - 1];
      var w := Winner(front, tool, subject);
      if Matches(r, tool, subject) && (w < 0 || Specificity(r) >= Specificity(rules[w])) then |rules| - 1 else w
  }

  lemma WinnerNext(front: seq<Rule>, r: Rule, tool: string, subject: string)
    ensures var w := Winner(front, tool, subject);
            Winner(front + [r], tool, subject)
            == if Matches(r, tool, subject) && (w < 0 || Specificity(r) >= Specificity(front[w])) then |front| else w
  {
    assert (front + [r])[..|front|] == front;
    hide Matches, Specificity;
  }

  /** The scan's winner is the deciding rule; without a winner nothing matches. */
  lemma {:induction false} WinnerDecides(rules: seq<Rule>, tool: string, subject: string)
    ensures var w := Winner(rules, tool, subject);
            (w >= 0 ==> Decides(rules, w, tool, subject)) &&
            (w < 0 ==> forall j | 0 <= j < |rules| :: !Matches(rules[j], tool, subject))
  {
    if rules != [] {
      var front, r := rules[..|rules| - 1], rules[|rules| - 1];
      assert rules == front + [r];
      WinnerNext(front, r, tool, subject);
      WinnerDecides(front, tool, subject);
      hide Winner, Matches, Specificity;
    }
  }

  /** The decision before the shell-chaining guard. */
  function Decide(rules: seq<Rule>, def: Decision, tool: string, subject: string): Decision {
    var w := Winner(rules, tool, subject);
    if w < 0 then def else rules[w].decision
  }

  const OPERATORS: seq<string> := [";", "|", "&", "`", "$(", "\n"]

  ghost predicate Chains(command: string) { exists i | 0 <= i < |OPERATORS| :: Contains(command, OPERATORS[i]) }

  ghost function Guarded(decision: Decision, tool: string, subject: string): Decision {
    if tool == "bash" && decision == Allow && Chains(subject) then Ask else decision
  }

  // ---------------------------------------------------------------- the evaluator (evaluator.go)

  datatype PolicyFile = PolicyFile(def: Decision, rules: seq<Rule>)

  datatype Evaluator = Evaluator(rules: seq<Rule>, def: Decision)

  function NewEvaluator(policy: PolicyFile, grants: seq<Rule>): Evaluator {
    Evaluator(policy.rules + grants, if policy.def.Unknown? then Allow else policy.def)
  }

  lemma HasChar(s: string, c: char)
    ensures Contains(s, [c]) <==> c in s
  {
    ContainsMeans(s, [c]);
    if i :| 0 <= i <= |s| && [c] <= s[i..] { assert s[i] == c; }
    if i :| 0 <= i < |s| && s[i] == c { assert [c] <= s[i..]; }
  }

  /** A command chains when it holds a semicolon, a pipe, an ampersand, a backtick, a line feed or "$(". */
  lemma ChainsIff(command: string)
    ensures Chains(command) <==>
            ';' in command || '|' in command || '&' in command || '`' in command || '\n' in command ||
            exists i :: 0 <= i < |command| - 1 && command[i] == '$' && command[i + 1] == '('
  {
    HasChar(command, ';');
    HasChar(command, '|');
    HasChar(command, '&');
    HasChar(command, '`');
    HasChar(command, '\n');
    HasDollar(command);
    assert Chains(command) <==>
           Contains(command, OPERATORS[0]) || Contains(command, OPERATORS[1]) || Contains(command, OPERATORS[2]) ||
           Contains(command, OPERATORS[3]) || Contains(command, OPERATORS[4]) || Contains(command, OPERATORS[5]);
    hide Contains;
  }

  lemma HasDollar(command: string)
    ensures Contains(command, "$(") <==>
            exists i :: 0 <= i < |command| - 1 && command[i] == '$' && command[i + 1] == '('
  {
    ContainsMeans(command, "$(");
    if i :| 0 <= i <= |command| && "$(" <= command[i..] {
      assert command[i..][0] == '$' && command[i..][1] == '(';
    }
    if i :| 0 <= i < |command| - 1 && command[i] == '$' && command[i + 1] == '(' { assert "$(" <= command[i..]; }
  }

  /** What a rule's tool matches: itself, or with a star everything that starts with what stands before a star at its
      end (a star elsewhere is taken literally). */
  lemma MatchesToolMeans(r: Rule, tool: string)
    ensures '*' !in r.tool ==> (MatchesTool(r, tool) <==> tool == r.tool)
    ensures '*' in r.tool && r.tool[|r.tool| - 1] == '*' ==>
              (MatchesTool(r, tool) <==> r.tool[..|r.tool| - 1] <= tool)
    ensures '*' in r.tool && r.tool[|r.tool| - 1] != '*' ==>
              (MatchesTool(r, tool) <==> r.tool <= tool)
  {
    HasChar(r.tool, '*');
    hide Contains;
    if r.tool != "" { assert r.tool[|r.tool| - 1..] == [r.tool[|r.tool| - 1]]; }
  }

  /** What a rule's pattern matches: everything if it is empty or a star, else with a star at its end everything that
      starts with the rest, else itself. */
  lemma MatchesSubjectMeans(r: Rule, subject: string)
    ensures r.pattern == "" || r.pattern == "*" ==> MatchesSubject(r, subject)
    ensures r.pattern != "" && r.pattern[|r.pattern| - 1] == '*' ==>
              (MatchesSubject(r, subject) <==> r.pattern[..|r.pattern| - 1] <= subject)
    ensures r.pattern != "" && r.pattern[|r.pattern| - 1] != '*' ==>
              (MatchesSubject(r, subject) <==> subject == r.pattern)
  {
    if r.pattern != "" {
      assert r.pattern[|r.pattern| - 1..] == [r.pattern[|r.pattern| - 1]];
    }
  }

  /** A rule for a named tool beats one with a star in its tool; among rules for a named tool one for some subjects
      beats one for all.  Otherwise the later rule wins. */
  lemma SpecificityMeans(r: Rule, q: Rule)
    ensures Specificity(r) > Specificity(q) <==>
            '*' !in r.tool &&
            ('*' in q.tool || (r.pattern != "" && r.pattern != "*" && (q.pattern == "" || q.pattern == "*")))
  {
    HasChar(r.tool, '*');
    HasChar(q.tool, '*');
    hide Contains;
  }

  /** What no rule speaks of is decided by the default, and allowed if the default is not a known word. */
  lemma NothingMatches(policy: PolicyFile, grants: seq<Rule>, tool: string, subject: string)
    requires forall r | r in policy.rules + grants :: !Matches(r, tool, subject)
    ensures var e := NewEvaluator(policy, grants);
            Decide(e.rules, e.def, tool, subject) == if policy.def in {Allow, Ask, Deny} then policy.def else Allow
  {
    var e := NewEvaluator(policy, grants);
    WinnerDecides(e.rules, tool, subject);
    hide Matches, Winner, Specificity;
  }

  /** Reports whether the command holds one of the operators that let one line run several commands. */
  method HasCommandChaining(command: string) returns (chained: bool)
    ensures chained <==> Chains(command)
  {
    for i := 0 to |OPERATORS|
      invariant forall k | 0 <= k < i :: !Contains(command, OPERATORS[k])
    {
      if Contains(command, OPERATORS[i]) {
        return true;
      }
    }
    return false;
  }

  lemma SpecificityRange(r: Rule)
    ensures 1 <= Specificity(r) <= 3
  {
  }

  lemma NoWinner(tool: string, subject: string)
    ensures Winner([], tool, subject) == -1
  {
  }

  lemma WinnerSpecificity(rules: seq<Rule>, tool: string, subject: string)
    ensures var w := Winner(rules, tool, subject); w >= 0 ==> 1 <= Specificity(rules[w]) <= 3
  {
  }

  /** One pass over the rules finds the last of the most specific matching ones. */
  method Evaluate(e: Evaluator, tool: string, subject: string) returns (decision: Decision)
    ensures decision == Guarded(Decide(e.rules, e.def, tool, subject), tool, subject)
    ensures tool == "bash" && Chains(subject) ==> decision != Allow
  {
    hide Winner, Specificity, MatchesTool, MatchesSubject, Chains;
    decision := e.def;
    var best := -1;
    NoWinner(tool, subject);
    for i := 0 to |e.rules|
      invariant decision == Decide(e.rules[..i], e.def, tool, subject)
      invariant best == (var w := Winner(e.rules[..i], tool, subject); if w < 0 then -1 else Specificity(e.rules[w]))
    {
      var r := e.rules[i];
      assert e.rules[..i + 1] == e.rules[..i] + [r];
      WinnerNext(e.rules[..i], r, tool, subject);
      WinnerSpecificity(e.rules[..i], tool, subject);
      SpecificityRange(r);
      if !MatchesTool(r, tool) || !MatchesSubject(r, subject) {
        continue;
      }
      var sp := Specificity(r);
      if sp >= best {
        best := sp;
        decision := r.decision;
      }
    }
    assert e.rules[..|e.rules|] == e.rules;
    var chained := false;
    if tool == "bash" && decision == Allow {
      chained := HasCommandChaining(subject);
    }
    if chained {
      decision := Ask;
    }
  }

  /** The deciding rule is unique. */
  lemma WinnerIsUnique(rules: seq<Rule>, i: nat, tool: string, subject: string)
    requires Decides(rules, i, tool, subject)
    ensures Winner(rules, tool, subject) == i
  {
    WinnerDecides(rules, tool, subject);
    hide Matches, Specificity;
  }

  // ---------------------------------------------------------------- order among rules

  /** The rules of one specificity, in order. */
  function AtLevel(rules: seq<Rule>, level: int): seq<Rule> {
    if rules == [] then []
    else
      var front, r := rules[..|rules| - 1], rules[|rules| - 1];
      AtLevel(front, level) + if Specificity(r) == level then [r] else []
  }

  /** The decision of the last matching rule. */
  function LastMatch(rules: seq<Rule>, tool: string, subject: string): Option<Decision> {
    if rules == [] then None
    else if Matches(rules[|rules| - 1], tool, subject) then Some(rules[|rules| - 1].decision)
    else LastMatch(rules[..|rules| - 1], tool, subject)
  }

  function Choose(a: Option<Decision>, b: Option<Decision>): Option<Decision> { if a.Some? then a else b }

  /** The last match among the most specific level that has one. */
  function ByLevel(rules: seq<Rule>, tool: string, subject: string): Option<Decision> {
    Choose(LastMatch(AtLevel(rules, 3), tool, subject),
           Choose(LastMatch(AtLevel(rules, 2), tool, subject), LastMatch(AtLevel(rules, 1), tool, subject)))
  }

  lemma LevelNext(front: seq<Rule>, r: Rule, level: int, tool: string, subject: string)
    ensures LastMatch(AtLevel(front + [r], level), tool, subject)
         == if Specificity(r) == level && Matches(r, tool, subject) then Some(r.decision)
            else LastMatch(AtLevel(front, level), tool, subject)
  {
    assert (front + [r])[..|front|] == front;
    var s := AtLevel(front, level);
    assert (s + [r])[..|s|] == s && s + [] == s;
    hide Matches, Specificity;
  }

  /** A level above the winner's has no match; the winner's own level ends with it. */
  ghost predicate LevelsBelow(rules: seq<Rule>, tool: string, subject: string, w: int)
    requires w < |rules|
  {
    var l1, l2, l3 := LastMatch(AtLevel(rules, 1), tool, subject), LastMatch(AtLevel(rules, 2), tool, subject),
                      LastMatch(AtLevel(rules, 3), tool, subject);
    if w < 0 then l1 == l2 == l3 == None
    else
      var d := Some(rules[w].decision);
      match Specificity(rules[w])
      case 3 => l3 == d
      case 2 => l3 == None && l2 == d
      case _ => l3 == l2 == None && l1 == d
  }

  lemma {:induction false} WinnerTopsLevels(rules: seq<Rule>, tool: string, subject: string)
    ensures LevelsBelow(rules, tool, subject, Winner(rules, tool, subject))
  {
    if rules != [] {
      var front, r := rules[..|rules| - 1], rules[|rules| - 1];
      assert rules == front + [r];
      WinnerTopsLevels(front, tool, subject);
      LevelNext(front, r, 1, tool, subject);
      LevelNext(front, r, 2, tool, subject);
      LevelNext(front, r, 3, tool, subject);
      WinnerNext(front, r, tool, subject);
      SpecificityRange(r);
      if Winner(front, tool, subject) >= 0 { SpecificityRange(front[Winner(front, tool, subject)]); }
      hide AtLevel, LastMatch, Matches, Winner, Specificity;
    }
  }

  lemma DecidedByLevel(rules: seq<Rule>, def: Decision, tool: string, subject: string)
    ensures var d := ByLevel(rules, tool, subject);
            Decide(rules, def, tool, subject) == if d.None? then def else d.value
  {
    WinnerTopsLevels(rules, tool, subject);
    var w := Winner(rules, tool, subject);
    if w >= 0 { SpecificityRange(rules[w]); }
    hide AtLevel, LastMatch, Matches, Winner, Specificity;
  }

  /** Only the order within one specificity matters: rules of different specificity may be reordered freely. */
  lemma ReorderAcrossLevels(a: seq<Rule>, b: seq<Rule>, def: Decision, tool: string, subject: string)
    requires forall level | 1 <= level <= 3 :: AtLevel(a, level) == AtLevel(b, level)
    ensures Decide(a, def, tool, subject) == Decide(b, def, tool, subject)
  {
    DecidedByLevel(a, def, tool, subject);
    DecidedByLevel(b, def, tool, subject);
    hide AtLevel, Winner;
  }

  // ---------------------------------------------------------------- grants (grants.go)

  datatype Grant = Grant(tool: string, pattern: string, createdAt: int)

  function RuleOf(g: Grant): Rule { Rule(g.tool, g.pattern, Allow) }

  function RulesOf(grants: seq<Grant>): (rules: seq<Rule>)
    ensures |rules| == |grants|
  {
    seq(|grants|, i requires 0 <= i < |grants| => RuleOf(grants[i]))
  }

  class GrantStore {
    var grants: seq<Grant>

    constructor ()
      ensures grants == []
    {
      grants := [];
    }

    method Rules() returns (out: seq<Rule>)
      ensures out == RulesOf(grants)
    {
      out := [];
      for i := 0 to |grants|
        invariant |out| == i && forall k | 0 <= k < i :: out[k] == RuleOf(grants[k])
      {
        out := out + [Rule(grants[i].tool, grants[i].pattern, Allow)];
      }
    }

    /** The grant stays in memory even when writing the file fails. */
    method Add(tool: string, subject: string, now: int)
      modifies this
      ensures grants == old(grants) + [Grant(tool, subject, now)]
    {
      grants := grants + [Grant(tool, subject, now)];
    }
  }

  /** A grant for a literal subject of a literal tool. */
  predicate Literal(tool: string, pattern: string) {
    !Contains(tool, "*") && pattern != "" && !HasSuffix(pattern, "*")
  }

  /** The decision of an evaluator built from a policy and a store's grants. */
  function DecideWith(policy: PolicyFile, grants: seq<Grant>, tool: string, subject: string): Decision {
    var e := NewEvaluator(policy, RulesOf(grants));
    Decide(e.rules, e.def, tool, subject)
  }

  /** Whatever the policy and the earlier grants, adding this one changes no decision about any other call. */
  ghost predicate OnlyThere(g: Grant) {
    forall policy, grants, t, s | (t, s) != (g.tool, g.pattern) ::
      DecideWith(policy, grants + [g], t, s) == DecideWith(policy, grants, t, s)
  }

  lemma AppendRule(rules: seq<Rule>, r: Rule, def: Decision, tool: string, subject: string)
    ensures !Matches(r, tool, subject) ==> Decide(rules + [r], def, tool, subject) == Decide(rules, def, tool, subject)
    ensures Matches(r, tool, subject) && Specificity(r) == 3 ==> Decide(rules + [r], def, tool, subject) == r.decision
  {
    WinnerNext(rules, r, tool, subject);
    WinnerSpecificity(rules, tool, subject);
    hide Matches, Winner, Specificity;
  }

  lemma GrantIsAppended(policy: PolicyFile, grants: seq<Grant>, g: Grant)
    ensures NewEvaluator(policy, RulesOf(grants + [g])).rules
            == NewEvaluator(policy, RulesOf(grants)).rules + [RuleOf(g)]
  {
    assert RulesOf(grants + [g]) == RulesOf(grants) + [RuleOf(g)];
  }

  // ---------------------------------------------------------------- does an approval last?

  /** No rule matching the grant's own call can be more specific than the grant. */
  predicate Unbeatable(g: Grant) { Contains(g.tool, "*") || g.pattern != "*" }

  lemma MatchesItself(g: Grant)
    ensures Matches(RuleOf(g), g.tool, g.pattern)
  {
    if HasSuffix(g.tool, "*") { assert TrimSuffix(g.tool, "*") <= g.tool; }
    if HasSuffix(g.pattern, "*") { assert TrimSuffix(g.pattern, "*") <= g.pattern; }
    hide Contains;
  }

  lemma NoneMoreSpecific(g: Grant, r: Rule)
    requires Unbeatable(g) && Matches(r, g.tool, g.pattern)
    ensures Specificity(r) <= Specificity(RuleOf(g))
  {
    if g.pattern == "" { OnlyCatchAll(r); }
    hide Contains;
  }

  lemma GrantAllows(policy: PolicyFile, grants: seq<Grant>, g: Grant)
    requires g in grants && Unbeatable(g)
    ensures DecideWith(policy, grants, g.tool, g.pattern) == Allow
  {
    var rules := NewEvaluator(policy, RulesOf(grants)).rules;
    var i :| 0 <= i < |grants| && grants[i] == g;
    var k, w := |policy.rules| + i, Winner(rules, g.tool, g.pattern);
    assert rules[k] == RuleOf(g) && forall j | k <= j < |rules| :: rules[j].decision == Allow;
    MatchesItself(g);
    WinnerDecides(rules, g.tool, g.pattern);
    hide Winner, Matches, Specificity, RulesOf;
    assert w >= 0;
    NoneMoreSpecific(g, rules[w]);
    assert k <= w;
  }

  /** Whatever the policy and the other grants, before or after it, the grant keeps its own call allowed. */
  ghost predicate KeepsAllowing(g: Grant) {
    forall policy, grants | g in grants :: DecideWith(policy, grants, g.tool, g.pattern) == Allow
  }

  /** ... and is still there after the shell-chaining guard, so the question never comes back. */
  ghost predicate StopsAsking(g: Grant) {
    forall policy, grants | g in grants ::
      Guarded(DecideWith(policy, grants, g.tool, g.pattern), g.tool, g.pattern) == Allow
  }

  /** Before the guard an approval holds for good exactly when it is not "*" for one named tool: that one is read as a
      catch-all, and a policy rule with a narrower pattern that fits the text "*" outranks it. */
  lemma GrantAllowsIff(g: Grant)
    ensures KeepsAllowing(g) <==> Unbeatable(g)
  {
    if Unbeatable(g) {
      forall policy, grants | g in grants ensures DecideWith(policy, grants, g.tool, g.pattern) == Allow {
        GrantAllows(policy, grants, g);
      }
    } else {
      StarIsBeaten(g);
      assert g in [g];
    }
  }

  lemma StarIsBeaten(g: Grant)
    requires !Unbeatable(g)
    ensures DecideWith(PolicyFile(Allow, [Rule(g.tool, "**", Ask)]), [g], g.tool, g.pattern) == Ask
  {
    var narrow := Rule(g.tool, "**", Ask);
    assert RulesOf([g]) == [RuleOf(g)] && [narrow] + [RuleOf(g)] == [narrow, RuleOf(g)];
    assert HasSuffix("**", "*") && TrimSuffix("**", "*") == "*";
    assert Matches(narrow, g.tool, "*") && Specificity(narrow) == 3 && Specificity(RuleOf(g)) == 2;
    hide Matches, Specificity, Winner;
    assert Decides([narrow, RuleOf(g)], 0, g.tool, "*");
    WinnerIsUnique([narrow, RuleOf(g)], 0, g.tool, "*");
  }

  /** An approval is supposed to stop the question from coming back.  For all policies and stores it does exactly when
      the approved call is not a bash command holding a chaining operator and not "*" for one named tool. */
  lemma GrantStopsAskingIff(g: Grant)
    ensures StopsAsking(g) <==> !(g.tool == "bash" && Chains(g.pattern)) && Unbeatable(g)
  {
    GrantAllowsIff(g);
    hide DecideWith, Chains, Unbeatable;
    if g.tool == "bash" && Chains(g.pattern) {
      assert g in [g];
      assert Guarded(DecideWith(PolicyFile(Allow, []), [g], g.tool, g.pattern), g.tool, g.pattern) != Allow;
    }
  }

  /** Approved "always", allowed by the evaluator's rules, and asked about again. */
  lemma ChainedGrantStillAsks()
    ensures var g := Grant("bash", "a;b", 0);
            DecideWith(PolicyFile(Ask, []), [g], g.tool, g.pattern) == Allow &&
            Guarded(DecideWith(PolicyFile(Ask, []), [g], g.tool, g.pattern), g.tool, g.pattern) == Ask
  {
    var g := Grant("bash", "a;b", 0);
    assert g in [g];
    GrantAllows(PolicyFile(Ask, []), [g], g);
    assert "a;b"[1..] == ";b" && ";" <= ";b" && Contains(";b", ";");
    assert Contains("a;b", OPERATORS[0]);
    hide DecideWith;
  }

  /** Approved "always" for the subject "*", and asked about again because a narrower rule of the policy fits it. */
  lemma StarGrantStillAsks()
    ensures var policy := PolicyFile(Allow, [Rule("read_file", "**", Ask)]);
            DecideWith(policy, [Grant("read_file", "*", 0)], "read_file", "*") == Ask
  {
    Plain("read_file");
    StarIsBeaten(Grant("read_file", "*", 0));
  }

  // ---------------------------------------------------------------- how far does an approval reach?

  lemma NotStar(pattern: string)
    requires !HasSuffix(pattern, "*")
    ensures pattern != "*"
  {
  }

  /** An approval changes its own call and nothing else exactly when it is literal; an approved subject that is empty
      or ends in "*" is read as a pattern and silently covers calls nobody saw. */
  lemma GrantIsExactIffLiteral(g: Grant)
    ensures OnlyThere(g) <==> Literal(g.tool, g.pattern)
  {
    if Literal(g.tool, g.pattern) {
      forall policy, grants, t, s | (t, s) != (g.tool, g.pattern)
        ensures DecideWith(policy, grants + [g], t, s) == DecideWith(policy, grants, t, s)
      {
        var e := NewEvaluator(policy, RulesOf(grants));
        GrantIsAppended(policy, grants, g);
        NotStar(g.pattern);
        AppendRule(e.rules, RuleOf(g), e.def, t, s);
        hide Decide, RulesOf;
      }
    } else {
      var t, s := Stranger(g.tool, g.pattern);
      var policy := PolicyFile(Ask, []);
      NotGranted(RuleOf(g), t, s);
      GrantIsAppended(policy, [], g);
      assert [] + [RuleOf(g)] == [RuleOf(g)] && NewEvaluator(policy, RulesOf([])).rules == [];
      hide Decide, RulesOf;
      assert DecideWith(policy, [] + [g], t, s) != DecideWith(policy, [], t, s);
    }
  }

  lemma NotGranted(g: Rule, t: string, s: string)
    requires Matches(g, t, s)
    ensures Decide([g], Ask, t, s) == g.decision && Decide([], Ask, t, s) == Ask
  {
    WinnerNext([], g, t, s);
    assert [] + [g] == [g];
  }

  /** Another call the approval covers. */
  lemma Stranger(tool: string, pattern: string) returns (t: string, s: string)
    requires !Literal(tool, pattern)
    ensures (t, s) != (tool, pattern) && Matches(Rule(tool, pattern, Allow), t, s)
  {
    var head := TrimSuffix(tool, "*");
    if Contains(tool, "*") {
      t := head + "??";
      s := TrimSuffix(pattern, "*");
      assert head <= t;
    } else {
      t, s := tool, TrimSuffix(pattern, "*") + "??";
      assert TrimSuffix(pattern, "*") <= s;
    }
  }

  // ---------------------------------------------------------------- tools nobody may use

  ghost predicate AllDeny(rules: seq<Rule>, tool: string) {
    forall r | r in rules && MatchesTool(r, tool) :: r.decision == Deny
  }

  ghost predicate Mentioned(rules: seq<Rule>, tool: string) { exists r :: r in rules && MatchesTool(r, tool) }

  method FullyDenied(e: Evaluator, tool: string) returns (denied: bool)
    ensures denied <==> AllDeny(e.rules, tool) && (Mentioned(e.rules, tool) || e.def == Deny)
  {
    var matched := false;
    for i := 0 to |e.rules|
      invariant AllDeny(e.rules[..i], tool) && (matched <==> Mentioned(e.rules[..i], tool))
    {
      var r := e.rules[i];
      assert e.rules[..i + 1] == e.rules[..i] + [r];
      hide MatchesTool;
      if !MatchesTool(r, tool) {
        continue;
      }
      matched := true;
      if r.decision != Deny {
        assert r in e.rules;
        return false;
      }
    }
    assert e.rules[..|e.rules|] == e.rules;
    if matched {
      return true;
    }
    return e.def == Deny;
  }

  ghost predicate CaughtAll(rules: seq<Rule>, tool: string) {
    exists r :: r in rules && MatchesTool(r, tool) && CatchAll(r)
  }

  /** When every rule for a tool denies, every call to it is denied exactly when the default denies or some rule for it
      catches every subject. */
  lemma DeniedForAllSubjects(rules: seq<Rule>, def: Decision, tool: string)
    requires AllDeny(rules, tool)
    ensures (forall subject :: Decide(rules, def, tool, subject) == Deny) <==> def == Deny || CaughtAll(rules, tool)
  {
    forall subject | def == Deny || CaughtAll(rules, tool) ensures Decide(rules, def, tool, subject) == Deny {
      DeniedHere(rules, def, tool, subject);
    }
    if def != Deny && !CaughtAll(rules, tool) {
      assert Decide(rules, def, tool, "") != Deny by { NothingMatchesEmpty(rules, def, tool); }
    }
  }

  lemma DeniedHere(rules: seq<Rule>, def: Decision, tool: string, subject: string)
    requires AllDeny(rules, tool) && (def == Deny || CaughtAll(rules, tool))
    ensures Decide(rules, def, tool, subject) == Deny
  {
    WinnerDecides(rules, tool, subject);
    var w := Winner(rules, tool, subject);
    hide Winner, MatchesTool, Specificity;
    if CaughtAll(rules, tool) {
      var r :| r in rules && MatchesTool(r, tool) && CatchAll(r);
      var j :| 0 <= j < |rules| && rules[j] == r;
      assert Matches(rules[j], tool, subject);
    }
    if w >= 0 { assert rules[w] in rules; }
  }

  /** Only a catch-all matches the empty subject. */
  lemma NothingMatchesEmpty(rules: seq<Rule>, def: Decision, tool: string)
    requires !CaughtAll(rules, tool)
    ensures Decide(rules, def, tool, "") == def
  {
    WinnerDecides(rules, tool, "");
    var w := Winner(rules, tool, "");
    hide Winner, MatchesTool, Specificity;
    if w >= 0 {
      assert rules[w] in rules;
      OnlyCatchAll(rules[w]);
    }
  }

  lemma OnlyCatchAll(r: Rule)
    ensures MatchesSubject(r, "") ==> CatchAll(r)
  {
    if HasSuffix(r.pattern, "*") && TrimSuffix(r.pattern, "*") == "" {
      assert r.pattern == "*";
    }
  }

  /** One narrow rule makes a tool look denied although most of its calls are allowed. */
  lemma NarrowRuleLooksFull()
    ensures var rules := [Rule("bash", "rm *", Deny)];
            AllDeny(rules, "bash") && Mentioned(rules, "bash") && Decide(rules, Allow, "bash", "") == Allow
  {
    var rules := [Rule("bash", "rm *", Deny)];
    assert !Contains("bash", "*") by { Plain("bash"); }
    assert rules[0] in rules && MatchesTool(rules[0], "bash");
    NothingMatchesEmpty(rules, Allow, "bash");
  }

  lemma {:induction false} Plain(s: string)
    requires '*' !in s
    ensures !Contains(s, "*")
  {
    if s != "" {
      assert s == [s[0]] + s[1..];
      Plain(s[1..]);
    }
  }
}
