/** Classification and blocking rules: `RuleManager`. */
module Rules {
  import opened Base
  import opened Text

  datatype AppType =
    | UNKNOWN | HTTP | HTTPS | YOUTUBE | FACEBOOK | GOOGLE | GITHUB | INSTAGRAM | TWITTER | AMAZON
    | NETFLIX | DISCORD | ZOOM | TELEGRAM | TIKTOK | SPOTIFY | CLOUDFLARE | MICROSOFT | APPLE

  const DOT := "."

  /** The built-in classification table, in its own order. */
  const DOMAIN_RULES: seq<(string, AppType)> := [
    ("google.com", GOOGLE), ("facebook.com", FACEBOOK), ("youtube.com", YOUTUBE), ("github.com", GITHUB),
    ("instagram.com", INSTAGRAM), ("twitter.com", TWITTER), ("amazon.com", AMAZON), ("netflix.com", NETFLIX),
    ("discord.com", DISCORD), ("zoom.us", ZOOM), ("telegram.org", TELEGRAM), ("tiktok.com", TIKTOK),
    ("spotify.com", SPOTIFY), ("cloudflare.com", CLOUDFLARE), ("microsoft.com", MICROSOFT), ("apple.com", APPLE)
  ]

  /** `domain.lower().strip().rstrip(".")`. */
  function Normalize(domain: string): string {
    StripDots(Strip(Lower(domain)))
  }

  /** `domain == rule or domain.endswith("." + rule)`. */
  predicate Matches(domain: string, rule: string) {
    domain == rule || EndsWith(domain, DOT + rule)
  }

  function Labels(domain: string): (r: seq<string>)
    ensures |r| >= 1
  {
    Split(domain, DOT)
  }

  /** A blocking rule against a normalised domain: a dotless rule is a label, any other a domain suffix. */
  predicate RuleHits(domain: string, rule: string) {
    if '.' !in rule then rule in Labels(domain) else Matches(domain, rule)
  }

  // ---------------------------------------------------------------- the rule manager

  /** The application of the first entry that matches a normalised domain. */
  function FirstMatch(table: seq<(string, AppType)>, domain: string): AppType {
    if table == [] then UNKNOWN
    else if Matches(domain, Normalize(table[0].0)) then table[0].1
    else FirstMatch(table[1..], domain)
  }

  /** What flow tracking needs to know of a rule manager; the flow theorems hold for every policy. */
  datatype Policy = Policy(
    classify: string -> AppType, blocksIp: string -> bool, blocksApp: AppType -> bool, blocksDomain: string -> bool)
  {
    /** This domain alone is enough to block a flow that carries it. */
    predicate Condemns(domain: string) {
      blocksApp(classify(domain)) || blocksDomain(domain)
    }
  }

  datatype RuleManager = RuleManager(
    domainRules: seq<(string, AppType)>,
    blockedIps: set<string>, blockedApps: set<AppType>, blockedDomains: set<string>)
  {
    /** The application of an optional domain. */
    function Classify(domain: Option<string>): AppType {
      if !Truthy(domain) then UNKNOWN else FirstMatch(domainRules, Normalize(domain.value))
    }

    predicate IsIpBlocked(sourceIp: string) {
      sourceIp != "" && sourceIp in blockedIps
    }

    predicate IsAppBlocked(app: AppType) {
      app in blockedApps
    }

    predicate DomainBlocked(domain: Option<string>) {
      Truthy(domain) && exists rule | rule in blockedDomains :: RuleHits(Normalize(domain.value), Normalize(rule))
    }

    /** The questions that flow tracking asks, as a policy. */
    function ToPolicy(): Policy {
      Policy(
        domain => Classify(Some(domain)),
        ip => IsIpBlocked(ip),
        app => IsAppBlocked(app),
        domain => DomainBlocked(Some(domain)))
    }

    /** `classify_domain`. */
    method ClassifyDomain(domain: Option<string>) returns (app: AppType)
      ensures app == Classify(domain)
    {
      if !Truthy(domain) { return UNKNOWN; }
      var normalized := Normalize(domain.value);
      app := SearchTable(domainRules, normalized);
    }

    /** The loop of `classify_domain` over the table. */
    static method SearchTable(table: seq<(string, AppType)>, normalized: string) returns (app: AppType)
      ensures app == FirstMatch(table, normalized)
    {
      for i := 0 to |table|
        invariant FirstMatch(table, normalized) == FirstMatch(table[i..], normalized)
      {
        var rule := Normalize(table[i].0);
        if Matches(normalized, rule) { return table[i].1; }
        assert table[i..][1..] == table[i + 1..];
      }
      return UNKNOWN;
    }

    /** `is_domain_blocked`: the set is walked in an arbitrary order, which the answer does not depend on. */
    method IsDomainBlocked(domain: Option<string>) returns (blocked: bool)
      ensures blocked == DomainBlocked(domain)
    {
      if !Truthy(domain) { return false; }
      var normalized := Normalize(domain.value);
      var left := blockedDomains;
      while left != {}
        invariant left <= blockedDomains
        invariant forall rule | rule in blockedDomains - left :: !RuleHits(normalized, Normalize(rule))
        decreases |left|
      {
        var raw :| raw in left;
        left := left - {raw};
        var rule := Normalize(raw);
        if '.' !in rule {
          if rule in Split(normalized, DOT) { return true; }
        } else if Matches(normalized, rule) {
          return true;
        }
      }
      return false;
    }
  }

  /** `RuleManager.__init__`: a custom list replaces the default one of its kind. */
  function Configure(ips: Option<set<string>>, apps: Option<set<AppType>>, domains: Option<set<string>>): RuleManager {
    RuleManager(
      DOMAIN_RULES,
      ips.GetOr({"10.0.0.50"}),
      apps.GetOr({FACEBOOK}),
      domains.GetOr({"malicious.com", "phishing.com", "evil-site.net", "fake-login.com"}))
  }

  // ---------------------------------------------------------------- suffix matching is label matching

  /** `xs` ends `ys`. */
  predicate LabelSuffix(xs: seq<string>, ys: seq<string>) {
    |xs| <= |ys| && ys[|ys| - |xs|..] == xs
  }

  lemma MatchGivesSuffix(domain: string, rule: string)
    requires EndsWith(domain, DOT + rule)
    ensures LabelSuffix(Labels(rule), Labels(domain))
  {
    var front := domain[..|domain| - |rule| - 1];
    assert domain == front + DOT + rule;
    SplitConcat(front, rule, DOT);
  }

  lemma SuffixGivesMatch(domain: string, rule: string)
    requires LabelSuffix(Labels(rule), Labels(domain))
    ensures Matches(domain, rule)
  {
    JoinSplit(domain, DOT);
    JoinSplit(rule, DOT);
    var front := Labels(domain)[..|Labels(domain)| - |Labels(rule)|];
    assert Labels(domain) == front + Labels(rule);
    if front != [] {
      JoinConcat(front, Labels(rule), DOT);
      assert domain == Join(front, DOT) + (DOT + rule);
    }
  }

  /** The string test holds exactly when the rule's labels are the last labels of the domain. */
  lemma MatchIsLabelSuffix(domain: string, rule: string)
    ensures Matches(domain, rule) <==> LabelSuffix(Labels(rule), Labels(domain))
  {
    if EndsWith(domain, DOT + rule) { MatchGivesSuffix(domain, rule); }
    if LabelSuffix(Labels(rule), Labels(domain)) { SuffixGivesMatch(domain, rule); }
  }

  /** Two rules that match one domain are nested. */
  lemma MatchingRulesNest(domain: string, rule1: string, rule2: string)
    requires Matches(domain, rule1) && Matches(domain, rule2)
    ensures Matches(rule1, rule2) || Matches(rule2, rule1)
  {
    MatchIsLabelSuffix(domain, rule1);
    MatchIsLabelSuffix(domain, rule2);
    MatchIsLabelSuffix(rule1, rule2);
    MatchIsLabelSuffix(rule2, rule1);
    var d, l1, l2 := Labels(domain), Labels(rule1), Labels(rule2);
    if |l2| <= |l1| {
      assert l1[|l1| - |l2|..] == d[|d| - |l2|..];
    } else {
      assert l2[|l2| - |l1|..] == d[|d| - |l1|..];
    }
  }

  lemma MatchesSubdomains(prefix: string, domain: string, rule: string)
    requires Matches(domain, rule)
    ensures Matches(prefix + DOT + domain, rule)
  {
    SplitConcat(prefix, domain, DOT);
    MatchIsLabelSuffix(domain, rule);
    MatchIsLabelSuffix(prefix + DOT + domain, rule);
    var long, short, r := Labels(prefix + DOT + domain), Labels(domain), Labels(rule);
    assert long[|long| - |r|..] == short[|short| - |r|..];
  }

  /** A rule that hits a domain hits every subdomain of it. */
  lemma HitsSubdomains(prefix: string, domain: string, rule: string)
    requires RuleHits(domain, rule)
    ensures RuleHits(prefix + DOT + domain, rule)
  {
    if '.' in rule {
      MatchesSubdomains(prefix, domain, rule);
    } else {
      SplitConcat(prefix, domain, DOT);
    }
  }

  // ---------------------------------------------------------------- normalisation

  /** Lower case, with no white space at either end and no trailing dot. */
  predicate Tight(s: string) {
    IsLower(s) && (s == "" || (!IsSpace(s[0]) && !IsSpace(s[|s| - 1]) && s[|s| - 1] != '.'))
  }

  lemma TightIsNormal(s: string)
    requires Tight(s)
    ensures Normalize(s) == s
  {
    LowerFixed(s);
  }

  /** What normalisation guarantees: white space may still stand at the right end. */
  lemma NormalShape(domain: string)
    ensures var n := Normalize(domain);
            IsLower(n) && (n == "" || (!IsSpace(n[0]) && n[|n| - 1] != '.'))
  {
    LowerFixed(domain);
    StripLeftKeepsLower(Lower(domain));
  }

  lemma LooseIsNotNormal(s: string)
    requires s != "" && IsLower(s) && IsSpace(s[|s| - 1])
    ensures |Normalize(s)| < |s|
  {
    LowerFixed(s);
    if IsSpace(s[0]) {
      assert |StripLeft(s)| <= |s[1..]|;
    } else {
      assert StripLeft(s) == s;
    }
    assert |StripRight(s)| <= |s[..|s| - 1]|;
  }

  predicate EndsInSpace(s: string) {
    s != "" && IsSpace(s[|s| - 1])
  }

  lemma NormalFixed(domain: string)
    ensures var n := Normalize(domain);
            Normalize(n) == n <==> !EndsInSpace(n)
  {
    var n := Normalize(domain);
    NormalShape(domain);
    if EndsInSpace(n) { LooseIsNotNormal(n); } else { TightIsNormal(n); }
  }

  /** What normalisation does at the right end. */
  function Trim(s: string): (r: string)
    ensures r <= s
  {
    StripDots(StripRight(s))
  }

  lemma TrimLower(s: string)
    ensures Trim(Lower(s)) == Lower(Trim(s))
  {
    StripRightLower(s);
    StripDotsLower(StripRight(s));
  }

  /** Normalisation works on the two ends independently. */
  lemma NormalForm(domain: string)
    ensures Normalize(domain) == StripLeft(Trim(Lower(domain))) == Lower(StripLeft(Trim(domain)))
  {
    StripLeftRight(Lower(domain));
    StripLeftDots(StripRight(Lower(domain)));
    TrimLower(domain);
    StripLeftLower(Trim(domain));
  }

  /** Removing the white space and then the dots at the right end leaves white space there, behind something else. */
  predicate UncoversSpace(domain: string) {
    StripLeft(Trim(domain)) != "" && EndsInSpace(Trim(domain))
  }

  lemma LowerEndsInSpace(s: string)
    ensures EndsInSpace(Lower(s)) <==> EndsInSpace(s)
  {
    if s != "" { LowerKeepsSpace(s[|s| - 1]); }
  }

  lemma StripLeftEndsInSpace(s: string)
    ensures EndsInSpace(StripLeft(s)) <==> StripLeft(s) != "" && EndsInSpace(s)
  {
    if StripLeft(s) != "" { StripLeftKeepsLast(s); }
  }

  lemma NormalEndsInSpace(domain: string)
    ensures EndsInSpace(Normalize(domain)) <==> UncoversSpace(domain)
  {
    NormalForm(domain);
    LowerEndsInSpace(StripLeft(Trim(domain)));
    StripLeftEndsInSpace(Trim(domain));
  }

  /** Normalisation is idempotent except where stripping the trailing dots uncovers white space. */
  lemma NormalizeTwice(domain: string)
    ensures Normalize(Normalize(domain)) != Normalize(domain) <==> UncoversSpace(domain)
  {
    NormalFixed(domain);
    NormalEndsInSpace(domain);
  }

  lemma SpaceDot()
    ensures Trim(" .") == " "
  {
    assert " ."[..1] == " " && StripDots(" ") == " ";
  }

  /** Domains whose normal form is not normal: any name followed by a space and a dot, such as `a.com .`. */
  lemma NormalizeIsNotIdempotent(name: string)
    requires Tight(name) && name != ""
    ensures Normalize(name + " .") == name + " "
    ensures Normalize(Normalize(name + " .")) != Normalize(name + " .")
  {
    SpaceDot();
    TrimConcat(name, " .");
    NormalForm(name + " .");
    assert StripLeft(name + " ") == name + " ";
    LowerFixed(name + " ");
    NormalizeTwice(name + " .");
  }

  lemma TrimConcat(front: string, s: string)
    requires Trim(s) != ""
    ensures Trim(front + s) == front + Trim(s)
  {
    StripRightConcat(front, s);
    StripDotsConcat(front, StripRight(s));
  }

  lemma LowerSubdomain(prefix: string, domain: string)
    ensures Lower(prefix + DOT + domain) == Lower(prefix) + (DOT + Lower(domain))
  {
    assert prefix + DOT + domain == prefix + (DOT + domain);
    LowerConcat(prefix, DOT + domain);
    LowerConcat(DOT, domain);
    assert Lower(DOT) == DOT;
  }

  /** A label in front of a domain that is all white space and dots at its right end loses them. */
  lemma TrimEmpty(front: string, s: string)
    requires Trim(s) == ""
    ensures Trim(front + (DOT + s)) == StripDots(front)
  {
    StripRightConcat(DOT, s);
    assert StripRight(DOT) == DOT && StripRight(DOT + s) == DOT + StripRight(s);
    StripRightConcat(front, DOT + s);
    StripDotsConcat(DOT, StripRight(s));
    assert DOT[..0] == "" && StripDots(DOT) == "";
    StripDotsConcat(front, DOT + StripRight(s));
  }

  /** Behind a label, a domain keeps any white space in front of it. */
  lemma SubdomainForm(prefix: string, domain: string)
    ensures Normalize(prefix + DOT + domain) ==
              if Trim(Lower(domain)) != "" then StripLeft(Lower(prefix)) + (DOT + Trim(Lower(domain)))
              else StripDots(StripLeft(Lower(prefix)))
  {
    var front, lower := StripLeft(Lower(prefix)), Lower(domain);
    LowerSubdomain(prefix, domain);
    StripLeftConcat(Lower(prefix), DOT + lower);
    assert Normalize(prefix + DOT + domain) == Trim(front + (DOT + lower));
    if Trim(lower) != "" {
      TrimConcat(DOT, lower);
      TrimConcat(front, DOT + lower);
    } else {
      TrimEmpty(front, lower);
    }
  }

  /** The white space in front of a domain, which normalisation removes. */
  lemma LeadingSpace(domain: string) returns (lead: string)
    requires Normalize(domain) != ""
    ensures Trim(Lower(domain)) == lead + Normalize(domain)
    ensures domain != "" && (lead != "" <==> IsSpace(domain[0]))
  {
    var rest := Trim(Lower(domain));
    NormalForm(domain);
    lead := StripLeftRemoves(rest);
    assert rest[0] == Lower(domain)[0] == LowerChar(domain[0]);
    LowerKeepsSpace(domain[0]);
  }

  lemma NothingBetween(front: string, lead: string, name: string)
    ensures front + (DOT + (lead + name)) == front + DOT + name <==> lead == ""
  {
    assert |front + (DOT + (lead + name))| == |front + DOT + name| + |lead|;
    if lead == "" { assert lead + name == name && front + (DOT + name) == front + DOT + name; }
  }

  /** Labels in front of a domain are normalised on their own, exactly when the domain starts with no white space. */
  lemma NormalizeSubdomain(prefix: string, domain: string)
    requires Normalize(domain) != ""
    ensures domain != ""
    ensures Normalize(prefix + DOT + domain) == StripLeft(Lower(prefix)) + DOT + Normalize(domain) <==>
              !IsSpace(domain[0])
  {
    var lead := LeadingSpace(domain);
    SubdomainForm(prefix, domain);
    NothingBetween(StripLeft(Lower(prefix)), lead, Normalize(domain));
  }

  // ---------------------------------------------------------------- the table

  /** No entry of the table matches the domain of another. */
  ghost predicate Unnested(table: seq<(string, AppType)>) {
    forall e, f | e in table && f in table && e != f :: !Matches(Normalize(e.0), Normalize(f.0))
  }

  /** Some entry of the table sends a normalised domain to `app`. */
  ghost predicate Sends(table: seq<(string, AppType)>, domain: string, app: AppType) {
    exists e | e in table :: Matches(domain, Normalize(e.0)) && e.1 == app
  }

  /** In a table without nested entries, classification is the relation `Sends`. */
  lemma {:induction false} FirstMatchIsOnlyMatch(table: seq<(string, AppType)>, domain: string, app: AppType)
    requires Unnested(table)
    ensures Sends(table, domain, app) ==> FirstMatch(table, domain) == app
    ensures Sends(table, domain, FirstMatch(table, domain)) || FirstMatch(table, domain) == UNKNOWN
  {
    if table != [] {
      var first, rest := table[0], table[1..];
      assert table == [first] + rest;
      FirstMatchIsOnlyMatch(rest, domain, app);
      if Matches(domain, Normalize(first.0)) {
        forall e | e in table && Matches(domain, Normalize(e.0)) ensures e == first {
          MatchingRulesNest(domain, Normalize(first.0), Normalize(e.0));
        }
      }
    }
  }

  /** The order of the entries of such a table does not matter. */
  lemma OrderIsIrrelevant(table: seq<(string, AppType)>, other: seq<(string, AppType)>, domain: string)
    requires Unnested(table) && forall e :: e in table <==> e in other
    ensures FirstMatch(other, domain) == FirstMatch(table, domain)
  {
    assert Unnested(other);
    FirstMatchIsOnlyMatch(table, domain, FirstMatch(other, domain));
    FirstMatchIsOnlyMatch(other, domain, FirstMatch(table, domain));
  }

  predicate Word(w: string) {
    w != "" && forall i | 0 <= i < |w| :: 'a' <= w[i] <= 'z'
  }

  /** Two lower-case labels. */
  predicate TwoWords(s: string, a: string, b: string) {
    s == a + DOT + b && Word(a) && Word(b)
  }

  lemma WordIsOneLabel(w: string)
    requires Word(w)
    ensures Labels(w) == [w]
  {
    FreeOfChar(w, '.');
    SplitFree(w, DOT);
  }

  ghost predicate IsTwoWords(s: string) {
    exists a, b :: TwoWords(s, a, b)
  }

  lemma TwoWordsAreTwoLabels(s: string)
    requires IsTwoWords(s)
    ensures |Labels(s)| == 2 && Normalize(s) == s
  {
    var a, b :| TwoWords(s, a, b);
    SplitConcat(a, b, DOT);
    WordIsOneLabel(a);
    WordIsOneLabel(b);
    TightIsNormal(s);
  }

  lemma FirstQuarter()
    ensures forall i | 0 <= i < 4 :: IsTwoWords(DOMAIN_RULES[i].0)
  {
    assert TwoWords(DOMAIN_RULES[0].0, "google", "com");
    assert TwoWords(DOMAIN_RULES[1].0, "facebook", "com");
    assert TwoWords(DOMAIN_RULES[2].0, "youtube", "com");
    assert TwoWords(DOMAIN_RULES[3].0, "github", "com");
  }

  lemma SecondQuarter()
    ensures forall i | 4 <= i < 8 :: IsTwoWords(DOMAIN_RULES[i].0)
  {
    assert TwoWords(DOMAIN_RULES[4].0, "instagram", "com");
    assert TwoWords(DOMAIN_RULES[5].0, "twitter", "com");
    assert TwoWords(DOMAIN_RULES[6].0, "amazon", "com");
    assert TwoWords(DOMAIN_RULES[7].0, "netflix", "com");
  }

  lemma ThirdQuarter()
    ensures forall i | 8 <= i < 12 :: IsTwoWords(DOMAIN_RULES[i].0)
  {
    assert TwoWords(DOMAIN_RULES[8].0, "discord", "com");
    assert TwoWords(DOMAIN_RULES[9].0, "zoom", "us");
    assert TwoWords(DOMAIN_RULES[10].0, "telegram", "org");
    assert TwoWords(DOMAIN_RULES[11].0, "tiktok", "com");
  }

  lemma LastQuarter()
    ensures forall i | 12 <= i < 16 :: IsTwoWords(DOMAIN_RULES[i].0)
  {
    assert TwoWords(DOMAIN_RULES[12].0, "spotify", "com");
    assert TwoWords(DOMAIN_RULES[13].0, "cloudflare", "com");
    assert TwoWords(DOMAIN_RULES[14].0, "microsoft", "com");
    assert TwoWords(DOMAIN_RULES[15].0, "apple", "com");
  }

  lemma EntriesAreTwoWords(i: nat)
    requires i < |DOMAIN_RULES|
    ensures IsTwoWords(DOMAIN_RULES[i].0)
  {
    FirstQuarter();
    SecondQuarter();
    ThirdQuarter();
    LastQuarter();
  }

  lemma EntriesHaveTwoLabels(i: nat)
    requires i < |DOMAIN_RULES|
    ensures |Labels(DOMAIN_RULES[i].0)| == 2 && Normalize(DOMAIN_RULES[i].0) == DOMAIN_RULES[i].0
  {
    EntriesAreTwoWords(i);
    TwoWordsAreTwoLabels(DOMAIN_RULES[i].0);
  }

  lemma EntriesDiffer(i: nat, j: nat)
    requires i < j < |DOMAIN_RULES|
    ensures DOMAIN_RULES[i].0 != DOMAIN_RULES[j].0
  {
  }

  /** No built-in entry is nested in another. */
  lemma TableIsUnnested()
    ensures Unnested(DOMAIN_RULES)
  {
    forall i: nat, j: nat | i < |DOMAIN_RULES| && j < |DOMAIN_RULES| && i != j
      ensures !Matches(Normalize(DOMAIN_RULES[i].0), Normalize(DOMAIN_RULES[j].0))
    {
      EntriesApart(i, j);
    }
  }

  lemma EntriesApart(i: nat, j: nat)
    requires i < |DOMAIN_RULES| && j < |DOMAIN_RULES| && i != j
    ensures !Matches(Normalize(DOMAIN_RULES[i].0), Normalize(DOMAIN_RULES[j].0))
  {
    var r, s := DOMAIN_RULES[i].0, DOMAIN_RULES[j].0;
    EntriesHaveTwoLabels(i);
    EntriesHaveTwoLabels(j);
    if i < j { EntriesDiffer(i, j); } else { EntriesDiffer(j, i); }
    MatchIsLabelSuffix(r, s);
    JoinSplit(r, DOT);
    JoinSplit(s, DOT);
  }

  /** A configured manager names an application exactly when some entry of its table matches, in any table order. */
  lemma ClassifyIsSends(rules: RuleManager, domain: string, app: AppType)
    requires rules.domainRules == DOMAIN_RULES && domain != "" && app != UNKNOWN
    ensures rules.Classify(Some(domain)) == app <==> Sends(DOMAIN_RULES, Normalize(domain), app)
  {
    TableIsUnnested();
    FirstMatchIsOnlyMatch(rules.domainRules, Normalize(domain), app);
  }

  lemma EntrySends(i: nat)
    requires i < |DOMAIN_RULES|
    ensures Sends(DOMAIN_RULES, DOMAIN_RULES[i].0, DOMAIN_RULES[i].1) && DOMAIN_RULES[i].1 != UNKNOWN
  {
    EntriesHaveTwoLabels(i);
    assert DOMAIN_RULES[i] in DOMAIN_RULES && Matches(DOMAIN_RULES[i].0, Normalize(DOMAIN_RULES[i].0));
  }

  lemma EntryIsClassified(rules: RuleManager, i: nat, site: string, app: AppType)
    requires rules.domainRules == DOMAIN_RULES && i < |DOMAIN_RULES| && DOMAIN_RULES[i] == (site, app)
    ensures rules.Classify(Some(site)) == app
  {
    EntriesHaveTwoLabels(i);
    EntrySends(i);
    ClassifyIsSends(rules, site, app);
  }

  /** The sites that are known by name, and what they are. */
  lemma FirstSites(rules: RuleManager, site: string)
    requires rules.domainRules == DOMAIN_RULES
    ensures site == "google.com" ==> rules.Classify(Some(site)) == GOOGLE
    ensures site == "facebook.com" ==> rules.Classify(Some(site)) == FACEBOOK
    ensures site == "youtube.com" ==> rules.Classify(Some(site)) == YOUTUBE
    ensures site == "github.com" ==> rules.Classify(Some(site)) == GITHUB
  {
    hide RuleManager.Classify;
    if site == "google.com" { EntryIsClassified(rules, 0, site, GOOGLE); }
    if site == "facebook.com" { EntryIsClassified(rules, 1, site, FACEBOOK); }
    if site == "youtube.com" { EntryIsClassified(rules, 2, site, YOUTUBE); }
    if site == "github.com" { EntryIsClassified(rules, 3, site, GITHUB); }
  }

  lemma SecondSites(rules: RuleManager, site: string)
    requires rules.domainRules == DOMAIN_RULES
    ensures site == "instagram.com" ==> rules.Classify(Some(site)) == INSTAGRAM
    ensures site == "twitter.com" ==> rules.Classify(Some(site)) == TWITTER
    ensures site == "amazon.com" ==> rules.Classify(Some(site)) == AMAZON
    ensures site == "netflix.com" ==> rules.Classify(Some(site)) == NETFLIX
  {
    hide RuleManager.Classify;
    if site == "instagram.com" { EntryIsClassified(rules, 4, site, INSTAGRAM); }
    if site == "twitter.com" { EntryIsClassified(rules, 5, site, TWITTER); }
    if site == "amazon.com" { EntryIsClassified(rules, 6, site, AMAZON); }
    if site == "netflix.com" { EntryIsClassified(rules, 7, site, NETFLIX); }
  }

  lemma ThirdSites(rules: RuleManager, site: string)
    requires rules.domainRules == DOMAIN_RULES
    ensures site == "discord.com" ==> rules.Classify(Some(site)) == DISCORD
    ensures site == "zoom.us" ==> rules.Classify(Some(site)) == ZOOM
    ensures site == "telegram.org" ==> rules.Classify(Some(site)) == TELEGRAM
    ensures site == "tiktok.com" ==> rules.Classify(Some(site)) == TIKTOK
  {
    hide RuleManager.Classify;
    if site == "discord.com" { EntryIsClassified(rules, 8, site, DISCORD); }
    if site == "zoom.us" { EntryIsClassified(rules, 9, site, ZOOM); }
    if site == "telegram.org" { EntryIsClassified(rules, 10, site, TELEGRAM); }
    if site == "tiktok.com" { EntryIsClassified(rules, 11, site, TIKTOK); }
  }

  lemma LastSites(rules: RuleManager, site: string)
    requires rules.domainRules == DOMAIN_RULES
    ensures site == "spotify.com" ==> rules.Classify(Some(site)) == SPOTIFY
    ensures site == "cloudflare.com" ==> rules.Classify(Some(site)) == CLOUDFLARE
    ensures site == "microsoft.com" ==> rules.Classify(Some(site)) == MICROSOFT
    ensures site == "apple.com" ==> rules.Classify(Some(site)) == APPLE
  {
    hide RuleManager.Classify;
    if site == "spotify.com" { EntryIsClassified(rules, 12, site, SPOTIFY); }
    if site == "cloudflare.com" { EntryIsClassified(rules, 13, site, CLOUDFLARE); }
    if site == "microsoft.com" { EntryIsClassified(rules, 14, site, MICROSOFT); }
    if site == "apple.com" { EntryIsClassified(rules, 15, site, APPLE); }
  }
}
