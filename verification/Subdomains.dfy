/** Subdomains under the rules: when they share their domain's application and its blocking, and where they do not. */
module Subdomains {
  import opened Base
  import opened Text
  import opened Rules

  // ---------------------------------------------------------------- applications of subdomains

  lemma EntriesAreNotEmpty(e: (string, AppType))
    requires e in DOMAIN_RULES
    ensures Normalize(e.0) != "" && |Labels(Normalize(e.0))| == 2
  {
    var i :| 0 <= i < |DOMAIN_RULES| && DOMAIN_RULES[i] == e;
    EntriesHaveTwoLabels(i);
    assert Labels("") == [""];
  }

  /** A two-label rule that matches a subdomain of a name with two labels matches that name. */
  lemma MatchReachesName(front: string, name: string, rule: string)
    requires Matches(front + DOT + name, rule) && |Labels(rule)| == 2 && |Labels(name)| >= 2
    ensures Matches(name, rule)
  {
    SplitConcat(front, name, DOT);
    MatchIsLabelSuffix(front + DOT + name, rule);
    MatchIsLabelSuffix(name, rule);
    var long, short := Labels(front + DOT + name), Labels(name);
    assert long[|long| - 2..] == short[|short| - 2..];
  }

  /** White space in front of a name adds no label and removes none. */
  lemma LabelsBehindSpace(lead: string, name: string)
    requires '.' in name
    ensures |Labels(lead + name)| >= 2
  {
    if |Labels(lead + name)| == 1 {
      JoinSplit(lead + name, DOT);
      assert Labels(lead + name) == [lead + name];
      var i :| 0 <= i < |name| && name[i] == '.';
      assert (lead + name)[|lead| + i] == '.';
      var k := |lead| + i;
      assert lead + name == (lead + name)[..k] + DOT + (lead + name)[k + 1..];
      SplitConcat((lead + name)[..k], (lead + name)[k + 1..], DOT);
    }
  }

  lemma MatchHasDot(name: string, rule: string)
    requires Matches(name, rule) && |Labels(rule)| == 2
    ensures '.' in name
  {
    JoinSplit(rule, DOT);
    assert rule == Labels(rule)[0] + DOT + Labels(rule)[1];
    assert rule[|Labels(rule)[0]|] == '.';
    if name != rule { assert name[|name| - |rule| - 1] == '.'; }
  }

  lemma SendsReachesName(front: string, name: string, app: AppType)
    requires |Labels(name)| >= 2
    ensures Sends(DOMAIN_RULES, front + DOT + name, app) <==> Sends(DOMAIN_RULES, name, app)
  {
    forall e | e in DOMAIN_RULES
      ensures Matches(front + DOT + name, Normalize(e.0)) <==> Matches(name, Normalize(e.0))
    {
      EntriesAreNotEmpty(e);
      if Matches(name, Normalize(e.0)) { MatchesSubdomains(front, name, Normalize(e.0)); }
      if Matches(front + DOT + name, Normalize(e.0)) { MatchReachesName(front, name, Normalize(e.0)); }
    }
  }

  /** What a classified domain leaves behind a label: at least two labels, and itself but for white space in front. */
  lemma ClassifiedName(rules: RuleManager, domain: string) returns (lead: string)
    requires rules.domainRules == DOMAIN_RULES && rules.Classify(Some(domain)) != UNKNOWN
    ensures Normalize(domain) != "" && Trim(Lower(domain)) == lead + Normalize(domain)
    ensures domain != "" && (lead != "" <==> IsSpace(domain[0]))
    ensures |Labels(Trim(Lower(domain)))| >= 2
    ensures Sends(DOMAIN_RULES, Normalize(domain), rules.Classify(Some(domain)))
  {
    var app := rules.Classify(Some(domain));
    ClassifyIsSends(rules, domain, app);
    var e :| e in DOMAIN_RULES && Matches(Normalize(domain), Normalize(e.0)) && e.1 == app;
    EntriesAreNotEmpty(e);
    MatchHasDot(Normalize(domain), Normalize(e.0));
    lead := LeadingSpace(domain);
    LabelsBehindSpace(lead, Normalize(domain));
  }

  lemma Regroup(front: string, name: string)
    ensures front + (DOT + name) == front + DOT + name
  {
  }

  lemma AppOfName(rules: RuleManager, subdomain: string, front: string, name: string, app: AppType)
    requires rules.domainRules == DOMAIN_RULES && subdomain != "" && app != UNKNOWN
    requires Normalize(subdomain) == front + DOT + name && |Labels(name)| >= 2
    ensures rules.Classify(Some(subdomain)) == app <==> Sends(DOMAIN_RULES, name, app)
  {
    ClassifyIsSends(rules, subdomain, app);
    SendsReachesName(front, name, app);
  }

  /** A subdomain of a classified domain is the same application exactly when some entry of that application matches the
      domain with the white space in front of it left on. */
  lemma SubdomainsAppExactly(rules: RuleManager, prefix: string, domain: string)
    requires rules.domainRules == DOMAIN_RULES && rules.Classify(Some(domain)) != UNKNOWN
    ensures rules.Classify(Some(prefix + DOT + domain)) == rules.Classify(Some(domain)) <==>
              Sends(DOMAIN_RULES, Trim(Lower(domain)), rules.Classify(Some(domain)))
  {
    var app, name, front := rules.Classify(Some(domain)), Trim(Lower(domain)), StripLeft(Lower(prefix));
    var lead := ClassifiedName(rules, domain);
    SubdomainForm(prefix, domain);
    Regroup(front, name);
    AppOfName(rules, prefix + DOT + domain, front, name, app);
  }

  /** So it always is when the domain does not start with white space. */
  lemma SubdomainsKeepTheirApp(rules: RuleManager, prefix: string, domain: string)
    requires rules.domainRules == DOMAIN_RULES
    requires rules.Classify(Some(domain)) != UNKNOWN && !IsSpace(domain[0])
    ensures rules.Classify(Some(prefix + DOT + domain)) == rules.Classify(Some(domain))
  {
    var lead := ClassifiedName(rules, domain);
    assert lead + Normalize(domain) == Normalize(domain);
    SubdomainsAppExactly(rules, prefix, domain);
  }

  // ---------------------------------------------------------------- blocked subdomains

  ghost predicate SomeRuleHits(rules: RuleManager, name: string) {
    exists rule | rule in rules.blockedDomains :: RuleHits(name, Normalize(rule))
  }

  ghost predicate AllSubdomainsBlocked(rules: RuleManager, domain: string) {
    forall prefix: string :: rules.DomainBlocked(Some(prefix + DOT + domain))
  }

  /** A number that no normalised rule is as long as. */
  lemma LongerThanAll(rules: set<string>) returns (n: nat)
    ensures n > 0 && forall rule | rule in rules :: |Normalize(rule)| < n
    decreases |rules|
  {
    if rules == {} {
      n := 1;
    } else {
      var rule :| rule in rules;
      var m := LongerThanAll(rules - {rule});
      n := m + |Normalize(rule)| + 1;
    }
  }

  /** A word longer than the rule is not hit by it. */
  lemma LongWordIsFree(word: string, rule: string)
    requires Word(word) && |rule| < |word|
    ensures !RuleHits(word, rule)
  {
    WordIsOneLabel(word);
    assert word[|word| - |rule| - 1] != '.';
  }

  /** Nor does it help the rule to hit a name behind it. */
  lemma LongWordHidesNothing(word: string, name: string, rule: string)
    requires Word(word) && |rule| < |word|
    requires RuleHits(word + DOT + name, rule)
    ensures RuleHits(name, rule)
  {
    var whole := word + DOT + name;
    if '.' !in rule {
      SplitConcat(word, name, DOT);
      WordIsOneLabel(word);
    } else {
      assert EndsWith(whole, DOT + rule);
      var at := |whole| - |rule| - 1;
      assert whole[at..][0] == '.';
      assert forall k | 0 <= k < |word| :: whole[k] == word[k] != '.';
      assert at >= |word|;
      assert whole[at + 1..] == rule && name[at - |word|..] == whole[at + 1..];
      if at > |word| { assert name[at - |word| - 1..] == whole[at..]; }
    }
  }

  lemma WordStays(word: string)
    requires Word(word)
    ensures StripLeft(Lower(word)) == word && StripDots(word) == word
  {
    LowerFixed(word);
  }

  lemma LongWordForm(word: string, domain: string)
    requires StripLeft(Lower(word)) == word && StripDots(word) == word
    ensures Normalize(word + DOT + domain) ==
              if Trim(Lower(domain)) != "" then word + DOT + Trim(Lower(domain)) else word
  {
    SubdomainForm(word, domain);
    Regroup(word, Trim(Lower(domain)));
  }

  /** Every subdomain of a domain is blocked exactly when some rule hits the domain with the white space in front of it
      left on. No domain that is nothing but white space, then dots, then white space has all its subdomains blocked. */
  lemma SubdomainsBlockedExactly(rules: RuleManager, domain: string)
    ensures AllSubdomainsBlocked(rules, domain) <==>
              Trim(Lower(domain)) != "" && SomeRuleHits(rules, Trim(Lower(domain)))
  {
    var name := Trim(Lower(domain));
    if name != "" && SomeRuleHits(rules, name) {
      forall prefix: string ensures rules.DomainBlocked(Some(prefix + DOT + domain)) {
        HitBlocksSubdomain(rules, prefix, domain);
      }
    }
    if AllSubdomainsBlocked(rules, domain) {
      LongWordDecides(rules, domain);
    }
  }

  lemma HitBlocks(rules: RuleManager, subdomain: string, front: string, name: string, rule: string)
    requires subdomain != "" && Normalize(subdomain) == front + DOT + name
    requires rule in rules.blockedDomains && RuleHits(name, Normalize(rule))
    ensures rules.DomainBlocked(Some(subdomain))
  {
    HitsSubdomains(front, name, Normalize(rule));
  }

  lemma HitBlocksSubdomain(rules: RuleManager, prefix: string, domain: string)
    requires Trim(Lower(domain)) != "" && SomeRuleHits(rules, Trim(Lower(domain)))
    ensures rules.DomainBlocked(Some(prefix + DOT + domain))
  {
    var name, front := Trim(Lower(domain)), StripLeft(Lower(prefix));
    var rule :| rule in rules.blockedDomains && RuleHits(name, Normalize(rule));
    SubdomainForm(prefix, domain);
    Regroup(front, name);
    HitBlocks(rules, prefix + DOT + domain, front, name, rule);
  }

  /** A label longer than every rule leaves the decision to the domain behind it. */
  lemma LongWordDecides(rules: RuleManager, domain: string)
    requires AllSubdomainsBlocked(rules, domain)
    ensures Trim(Lower(domain)) != "" && SomeRuleHits(rules, Trim(Lower(domain)))
  {
    var n := LongerThanAll(rules.blockedDomains);
    var word := seq(n, _ => 'a');
    assert rules.DomainBlocked(Some(word + DOT + domain));
    WordStays(word);
    LongWordForm(word, domain);
    var rule :| rule in rules.blockedDomains && RuleHits(Normalize(word + DOT + domain), Normalize(rule));
    if Trim(Lower(domain)) == "" {
      LongWordIsFree(word, Normalize(rule));
    } else {
      LongWordHidesNothing(word, Trim(Lower(domain)), Normalize(rule));
    }
  }

  /** So a blocked domain that starts with no white space, nor normalises to nothing, has its subdomains blocked. */
  lemma SubdomainsStayBlocked(rules: RuleManager, prefix: string, domain: string)
    requires rules.DomainBlocked(Some(domain)) && Normalize(domain) != "" && !IsSpace(domain[0])
    ensures rules.DomainBlocked(Some(prefix + DOT + domain))
  {
    var lead := LeadingSpace(domain);
    assert lead + Normalize(domain) == Normalize(domain);
    SubdomainsBlockedExactly(rules, domain);
    assert AllSubdomainsBlocked(rules, domain);
  }

  // ---------------------------------------------------------------- where the closure fails

  const SPACE := " "

  lemma SpacedName(name: string)
    requires Tight(name) && name != ""
    ensures Normalize(SPACE + name) == name && Trim(Lower(SPACE + name)) == SPACE + name
  {
    LowerFixed(SPACE + name);
    assert (SPACE + name)[1..] == name && StripLeft(name) == name && Trim(name) == name;
    TrimConcat(SPACE, name);
  }

  lemma SpacedSubdomainForm(name: string)
    requires Tight(name) && name != ""
    ensures Normalize("x" + DOT + (SPACE + name)) == "x" + DOT + (SPACE + name)
  {
    SpacedName(name);
    WordStays("x");
    LongWordForm("x", SPACE + name);
  }

  lemma SpaceIsNoDot(front: string, rule: string)
    requires '.' in rule && |front| == 1
    ensures !RuleHits(front + DOT + (SPACE + rule), rule)
  {
    var whole := front + DOT + (SPACE + rule);
    assert whole[|whole| - |rule| - 1..] == SPACE + rule;
    assert (SPACE + rule)[0] != (DOT + rule)[0];
  }

  lemma OnlyRule(rules: RuleManager, rule: string, domain: string, name: string)
    requires rules.blockedDomains == {rule} && Normalize(rule) == rule && domain != "" && Normalize(domain) == name
    ensures rules.DomainBlocked(Some(domain)) <==> RuleHits(name, rule)
  {
    assert rule in rules.blockedDomains;
  }

  /** White space in front of a blocked domain is stripped from it, but not from its subdomain: for any dotted rule,
      such as `a.com`, the domain `" a.com"` is blocked and its subdomain `"x. a.com"` is not. */
  lemma WhiteSpaceLetsSubdomainsThrough(rules: RuleManager, rule: string)
    requires rules.blockedDomains == {rule} && Tight(rule) && '.' in rule
    ensures rules.DomainBlocked(Some(SPACE + rule)) && !rules.DomainBlocked(Some("x" + DOT + (SPACE + rule)))
  {
    TightIsNormal(rule);
    SpacedName(rule);
    SpacedSubdomainForm(rule);
    SpaceIsNoDot("x", rule);
    OnlyRule(rules, rule, SPACE + rule, rule);
    OnlyRule(rules, rule, "x" + DOT + (SPACE + rule), "x" + DOT + (SPACE + rule));
  }

  lemma DotsAreNothing()
    ensures Normalize(".") == "" && Trim(Lower(".")) == ""
  {
    LowerFixed(".");
    assert "."[..0] == "" && StripRight(".") == "." && StripLeft(".") == ".";
  }

  /** A domain that normalises to nothing is blocked by a rule that does, but its subdomains are not. */
  lemma NothingLetsSubdomainsThrough(rules: RuleManager)
    requires rules.blockedDomains == {"."}
    ensures rules.DomainBlocked(Some(".")) && !rules.DomainBlocked(Some("x" + DOT + "."))
  {
    DotsAreNothing();
    WordStays("x");
    LongWordForm("x", ".");
    var rule := ".";
    assert Labels("") == [""];
    assert rule in rules.blockedDomains && RuleHits(Normalize("."), Normalize(rule));
    WordIsOneLabel("x");
  }

  lemma OneLabel(name: string)
    requires '.' !in name
    ensures Labels(name) == [name]
  {
    FreeOfChar(name, '.');
    SplitFree(name, DOT);
  }

  lemma TwoLabelsMatchOnlyThemselves(name: string, rule: string)
    requires |Labels(name)| == 2 && |Labels(rule)| == 2
    ensures Matches(name, rule) ==> rule == name
  {
    MatchIsLabelSuffix(name, rule);
    JoinSplit(name, DOT);
    JoinSplit(rule, DOT);
  }

  ghost predicate NothingSends(name: string) {
    forall app :: !Sends(DOMAIN_RULES, name, app)
  }

  /** No entry matches a two-label name that starts with white space. */
  lemma NothingSendsSpaced(a: string, b: string)
    requires '.' !in a && '.' !in b && a != "" && IsSpace(a[0])
    ensures |Labels(a + DOT + b)| == 2 && NothingSends(a + DOT + b)
  {
    SplitConcat(a, b, DOT);
    OneLabel(a);
    OneLabel(b);
    forall e | e in DOMAIN_RULES ensures !Matches(a + DOT + b, Normalize(e.0)) {
      EntriesAreNotEmpty(e);
      NormalShape(e.0);
      TwoLabelsMatchOnlyThemselves(a + DOT + b, Normalize(e.0));
    }
  }

  lemma TwoWordsAreTight(name: string, a: string, b: string)
    requires TwoWords(name, a, b)
    ensures Tight(name) && name != "" && '.' !in a && '.' !in b
  {
  }

  lemma UnderX(rules: RuleManager, name: string)
    requires rules.domainRules == DOMAIN_RULES && Tight(name) && name != ""
    requires |Labels(SPACE + name)| >= 2 && NothingSends(SPACE + name)
    ensures rules.Classify(Some("x" + DOT + (SPACE + name))) == UNKNOWN
  {
    var app := rules.Classify(Some("x" + DOT + (SPACE + name)));
    SpacedSubdomainForm(name);
    if app != UNKNOWN { AppOfName(rules, "x" + DOT + (SPACE + name), "x", SPACE + name, app); }
  }

  lemma SpacedTwoWords(name: string)
    requires IsTwoWords(name)
    ensures Tight(name) && name != "" && |Labels(SPACE + name)| >= 2 && NothingSends(SPACE + name)
  {
    var a, b :| TwoWords(name, a, b);
    TwoWordsAreTight(name, a, b);
    NothingSendsSpaced(SPACE + a, b);
    assert SPACE + name == SPACE + a + DOT + b;
  }

  lemma SpacedNameLosesTheApp(rules: RuleManager, name: string, app: AppType)
    requires rules.domainRules == DOMAIN_RULES && IsTwoWords(name) && Sends(DOMAIN_RULES, name, app) && app != UNKNOWN
    ensures rules.Classify(Some(SPACE + name)) == app
    ensures rules.Classify(Some("x" + DOT + (SPACE + name))) == UNKNOWN
  {
    SpacedTwoWords(name);
    SpacedName(name);
    ClassifyIsSends(rules, SPACE + name, app);
    UnderX(rules, name);
  }

  /** Classification has the same gap, at every entry of the table: with white space in front, `" google.com"` is GOOGLE
      and its subdomain `"x. google.com"` is UNKNOWN. */
  lemma WhiteSpaceLosesTheApp(rules: RuleManager, i: nat)
    requires rules.domainRules == DOMAIN_RULES && i < |DOMAIN_RULES|
    ensures rules.Classify(Some(SPACE + DOMAIN_RULES[i].0)) == DOMAIN_RULES[i].1 != UNKNOWN
    ensures rules.Classify(Some("x" + DOT + (SPACE + DOMAIN_RULES[i].0))) == UNKNOWN
  {
    EntriesAreTwoWords(i);
    EntrySends(i);
    SpacedNameLosesTheApp(rules, DOMAIN_RULES[i].0, DOMAIN_RULES[i].1);
  }

  // ---------------------------------------------------------------- dotless rules

  /** A dotless rule is a label at any position of the domain: first, last, in between, or the only one. */
  lemma LabelRuleHitsAnyPosition(before: string, word: string, after: string)
    requires '.' !in word
    ensures RuleHits(before + DOT + word + DOT + after, word)
    ensures RuleHits(word + DOT + after, word)
    ensures RuleHits(before + DOT + word, word)
    ensures RuleHits(word, word)
  {
    FreeOfChar(word, '.');
    SplitFree(word, DOT);
    SplitConcat(before, word + DOT + after, DOT);
    SplitConcat(before, word, DOT);
    SplitConcat(word, after, DOT);
    assert before + DOT + word + DOT + after == before + DOT + (word + DOT + after);
    assert Labels(word + DOT + after)[0] == word;
  }

  lemma FacebookIsWord()
    ensures Word("facebook") && '.' !in "facebook"
  {
  }

  lemma WordIsNormal(word: string)
    requires Word(word)
    ensures Normalize(word) == word
  {
    TightIsNormal(word);
  }

  lemma EvilIsNormal()
    ensures Normalize("facebook" + DOT + "evil.com") == "facebook" + DOT + "evil.com"
  {
    TightIsNormal("facebook" + DOT + "evil.com");
  }

  lemma LabelRuleBlocks(rules: RuleManager, word: string, after: string)
    requires Word(word) && '.' !in word && word in rules.blockedDomains
    requires Normalize(word + DOT + after) == word + DOT + after
    ensures rules.DomainBlocked(Some(word + DOT + after))
  {
    WordIsNormal(word);
    LabelRuleHitsAnyPosition("", word, after);
  }

  /** The rule `facebook` blocks `facebook.evil.com`, which the table in the original README lists as not matched. */
  lemma LabelRuleBlocksItsNamesake(rules: RuleManager)
    requires "facebook" in rules.blockedDomains
    ensures rules.DomainBlocked(Some("facebook" + DOT + "evil.com"))
  {
    FacebookIsWord();
    EvilIsNormal();
    LabelRuleBlocks(rules, "facebook", "evil.com");
  }
}
