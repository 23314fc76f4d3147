/** The identity resolver: a browser-family label derived from a user-agent string by an
    ordered chain of substring tests in which the first test that matches decides. */
module BrowserDetection {
  import opened Strings

  /** The label a handler starts with and keeps when no test matches. */
  const Detecting := "Detecting..."

  const Firefox := "Mozilla Firefox"
  const Samsung := "Samsung Internet"
  const Opera := "Opera"
  const InternetExplorer := "Microsoft Internet Explorer"
  const Edge := "Microsoft Edge"
  const Chrome := "Google Chrome/Chromium"
  const Safari := "Apple Safari"

  /** Every label the resolver can leave behind. */
  const Labels: set<string> := {Detecting, Firefox, Samsung, Opera, InternetExplorer, Edge, Chrome, Safari}

  /** One test of the chain: it matches when the user agent contains any of its tokens. */
  datatype Rule = Rule(tokens: seq<string>, browser: string)

  predicate Matches(rule: Rule, ua: string) {
    exists k :: 0 <= k < |rule.tokens| && Contains(ua, rule.tokens[k])
  }

  /** The chain as a table, in the order the tests are made. */
  const Rules: seq<Rule> := [
    Rule(["Firefox"], Firefox),
    Rule(["SamsungBrowser"], Samsung),
    Rule(["Opera", "OPR"], Opera),
    Rule(["Trident"], InternetExplorer),
    Rule(["Edge"], Edge),
    Rule(["Chrome"], Chrome),
    Rule(["Safari"], Safari)
  ]

  /** The position of the first rule that matches, or `|rules|` when none does. */
  function FirstMatch(rules: seq<Rule>, ua: string): (i: nat)
    ensures i <= |rules|
    ensures i < |rules| ==> Matches(rules[i], ua)
    ensures forall j :: 0 <= j < i ==> !Matches(rules[j], ua)
    decreases |rules|
  {
    if rules == [] then 0
    else if Matches(rules[0], ua) then 0
    else 1 + FirstMatch(rules[1..], ua)
  }

  /** `_detectBrowser`: the label of the first rule of `Rules` that the user agent matches,
      or `Detecting` when it matches none. */
  function Classify(ua: string): (browser: string)
    ensures browser in Labels
  {
    if Contains(ua, "Firefox") then Firefox
    else if Contains(ua, "SamsungBrowser") then Samsung
    else if Contains(ua, "Opera") || Contains(ua, "OPR") then Opera
    else if Contains(ua, "Trident") then InternetExplorer
    else if Contains(ua, "Edge") then Edge
    else if Contains(ua, "Chrome") then Chrome
    else if Contains(ua, "Safari") then Safari
    else Detecting
  }

  lemma MatchesOneToken(rule: Rule, ua: string)
    requires |rule.tokens| == 1
    ensures Matches(rule, ua) <==> Contains(ua, rule.tokens[0])
  {
    if Contains(ua, rule.tokens[0]) {
      assert 0 < |rule.tokens|;
    }
  }

  /** The if-chain and the rule table agree: the label is that of the first rule the user
      agent matches, and the sentinel only when it matches none. */
  lemma ClassifyIsFirstMatch(ua: string)
    ensures Classify(ua) == (var i := FirstMatch(Rules, ua); if i < |Rules| then Rules[i].browser else Detecting)
  {
    var rs := Rules;
    assert Matches(rs[2], ua) <==> Contains(ua, "Opera") || Contains(ua, "OPR") by {
      var ts := rs[2].tokens;
      assert ts == ["Opera", "OPR"];
      if Matches(rs[2], ua) {
        var k :| 0 <= k < |ts| && Contains(ua, ts[k]);
        assert k == 0 || k == 1;
      }
      if Contains(ua, "Opera") {
        assert Contains(ua, ts[0]);
      }
      if Contains(ua, "OPR") {
        assert Contains(ua, ts[1]);
      }
    }
    MatchesOneToken(rs[0], ua);
    MatchesOneToken(rs[1], ua);
    MatchesOneToken(rs[3], ua);
    MatchesOneToken(rs[4], ua);
    MatchesOneToken(rs[5], ua);
    MatchesOneToken(rs[6], ua);
    var i := FirstMatch(rs, ua);
    if i < |rs| {
      assert Matches(rs[i], ua);
    }
    assert i == 0 <==> Matches(rs[0], ua);
  }

  /** The Firefox test comes first, so it wins whatever else the user agent contains. */
  lemma FirefoxWins(ua: string)
    requires Contains(ua, "Firefox")
    ensures Classify(ua) == Firefox
  {
  }

  /** "Edge" is tested before "Chrome": a legacy Edge user agent, which also names Chrome,
      is labelled Edge. */
  lemma EdgeBeforeChrome(ua: string)
    requires Contains(ua, "Edge") && Contains(ua, "Chrome")
    requires !Contains(ua, "Firefox") && !Contains(ua, "SamsungBrowser")
    requires !Contains(ua, "Opera") && !Contains(ua, "OPR") && !Contains(ua, "Trident")
    ensures Classify(ua) == Edge
  {
  }

  /** A Chromium user agent names Safari too; "Chrome" is tested first. */
  lemma ChromeBeforeSafari(ua: string)
    requires Contains(ua, "Chrome") && Contains(ua, "Safari")
    requires !Contains(ua, "Firefox") && !Contains(ua, "SamsungBrowser")
    requires !Contains(ua, "Opera") && !Contains(ua, "OPR")
    requires !Contains(ua, "Trident") && !Contains(ua, "Edge")
    ensures Classify(ua) == Chrome
  {
  }

  /** An Opera user agent ("OPR") also names Chrome and Safari; the Opera test comes first. */
  lemma OperaBeforeChrome(ua: string)
    requires Contains(ua, "OPR")
    requires !Contains(ua, "Firefox") && !Contains(ua, "SamsungBrowser")
    ensures Classify(ua) == Opera
  {
  }

  /** The label stays at the sentinel exactly when none of the eight tokens occurs. */
  lemma UndetectedIffNoToken(ua: string)
    ensures Classify(ua) == Detecting <==>
      !Contains(ua, "Firefox") && !Contains(ua, "SamsungBrowser") &&
      !Contains(ua, "Opera") && !Contains(ua, "OPR") && !Contains(ua, "Trident") &&
      !Contains(ua, "Edge") && !Contains(ua, "Chrome") && !Contains(ua, "Safari")
  {
  }
}
