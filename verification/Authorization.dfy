/** Engagements with a validity window and allow/deny rules, and the decision whether a target is in scope. */
module Authorization {
  import opened Common
  import opened Text
  import opened Scope
  import opened Hosts

  /** Parsed moments of ISO-8601 stamps; None for text that does not parse. */
  type Parse = string -> Option<int>

  datatype Engagement = Engagement(name: string, validFrom: string, validUntil: string)

  datatype Rule = Rule(engagement: int, target: string, action: string, effect: string)

  datatype Window = NoWindow | NotYetValid | Expired | Active

  /** An empty stamp stands for a missing one. */
  function WindowStatus(e: Engagement, now: int, parse: Parse): Window {
    var start := if e.validFrom == "" then None else parse(e.validFrom);
    var end := if e.validUntil == "" then None else parse(e.validUntil);
    if e.validFrom == "" && e.validUntil == "" then NoWindow
    else if start.Some? && now < start.value then NotYetValid
    else if end.Some? && now > end.value then Expired
    else Active
  }

  datatype Reason = UnknownEngagement | EngagementExpired | EngagementNotYetValid | DeniedBy(target: string) | Authorized | NoRecord

  predicate Applies(r: Rule, engagement: int, effect: string, target: string, action: string, lib: Lib) {
    r.engagement == engagement && r.effect == effect && (r.action == "*" || r.action == action)
    && TargetMatches(target, r.target, lib)
  }

  predicate AnyApplies(rules: seq<Rule>, engagement: int, effect: string, target: string, action: string, lib: Lib) {
    exists r :: r in rules && Applies(r, engagement, effect, target, action, lib)
  }

  /** The specification: an existing engagement in its window, no applicable deny rule, some applicable allow rule. */
  ghost predicate InScope(engagements: map<int, Engagement>, rules: seq<Rule>, id: int, target: string, action: string,
                          now: int, parse: Parse, lib: Lib) {
    && id in engagements
    && (WindowStatus(engagements[id], now, parse) == NoWindow || WindowStatus(engagements[id], now, parse) == Active)
    && !AnyApplies(rules, id, "deny", target, action, lib)
    && AnyApplies(rules, id, "allow", target, action, lib)
  }

  /** Rule i is r, and no earlier rule applies. */
  ghost predicate FirstAt(rules: seq<Rule>, i: int, r: Rule, id: int, effect: string, target: string, action: string, lib: Lib) {
    0 <= i < |rules| && rules[i] == r && forall j :: 0 <= j < i ==> !Applies(rules[j], id, effect, target, action, lib)
  }

  /** It has a start that is still to come; the start itself is not early. */
  predicate Early(e: Engagement, now: int, parse: Parse) {
    e.validFrom != "" && match parse(e.validFrom) case None => false case Some(start) => now < start
  }

  /** It has an end that is past; the end itself is not late. */
  predicate Late(e: Engagement, now: int, parse: Parse) {
    e.validUntil != "" && match parse(e.validUntil) case None => false case Some(end) => now > end
  }

  lemma AppliesIs(r: Rule, id: int, effect: string, target: string, action: string, lib: Lib)
    ensures Applies(r, id, effect, target, action, lib) <==>
      && r.engagement == id && r.effect == effect && (r.action == "*" || r.action == action)
      && TargetMatches(target, r.target, lib)
  {
  }

  /** Some rule of this engagement with this effect, for every action or for this one, matches the target. */
  ghost predicate Ruled(rules: seq<Rule>, id: int, effect: string, target: string, action: string, lib: Lib) {
    exists r :: && r in rules && r.engagement == id && r.effect == effect && (r.action == "*" || r.action == action)
                && TargetMatches(target, r.target, lib)
  }

  lemma RulesAre(rules: seq<Rule>, id: int, effect: string, target: string, action: string, lib: Lib)
    ensures AnyApplies(rules, id, effect, target, action, lib) <==> Ruled(rules, id, effect, target, action, lib)
  {
    hide TargetMatches;
    if Ruled(rules, id, effect, target, action, lib) {
      var r :| && r in rules && r.engagement == id && r.effect == effect && (r.action == "*" || r.action == action)
               && TargetMatches(target, r.target, lib);
      assert Applies(r, id, effect, target, action, lib);
    }
  }

  class AuthorizationService {
    var engagements: map<int, Engagement>
    var lastEngagement: nat
    var rules: seq<Rule>

    constructor ()
      ensures engagements == map[] && lastEngagement == 0 && rules == [] && Valid()
    {
      engagements, lastEngagement, rules := map[], 0, [];
    }

    /** Ids are handed out upwards, and every rule belongs to an engagement. */
    ghost predicate Valid()
      reads this
    {
      && (forall id :: id in engagements ==> 1 <= id <= lastEngagement)
      && (forall r :: r in rules ==> r.engagement in engagements && (r.effect == "allow" || r.effect == "deny"))
    }

    method CreateEngagement(name: string, validFrom: string, validUntil: string, parse: Parse) returns (r: Result<int>)
      requires Valid()
      modifies this
      ensures Valid() && rules == old(rules)
      ensures r.Ok? <==> !Blank(name) && (validUntil == "" || parse(validUntil).Some?) && (validFrom == "" || parse(validFrom).Some?)
      ensures r.Err? ==> engagements == old(engagements)
      ensures r.Ok? ==> r.value !in old(engagements)
      ensures r.Ok? ==> engagements == old(engagements)[r.value := Engagement(Strip(name), validFrom, validUntil)]
    {
      if name == "" || Strip(name) == "" { return Err("Engagement name must not be empty"); }
      if validUntil != "" && parse(validUntil) == None { return Err("invalid valid_until timestamp"); }
      if validFrom != "" && parse(validFrom) == None { return Err("invalid valid_from timestamp"); }
      lastEngagement := lastEngagement + 1;
      engagements := engagements[lastEngagement := Engagement(Strip(name), validFrom, validUntil)];
      return Ok(lastEngagement);
    }

    method AddAuthorization(id: int, target: string, action: string, effect: string) returns (r: Result<nat>)
      requires Valid()
      modifies this
      ensures Valid() && engagements == old(engagements)
      ensures r.Ok? <==> (effect == "allow" || effect == "deny") && id in engagements
      ensures r.Err? ==> rules == old(rules)
      ensures r.Ok? ==> rules == old(rules) + [Rule(id, Strip(target), action, effect)]
    {
      if effect != "allow" && effect != "deny" { return Err("Invalid effect"); }
      if id !in engagements { return Err("Unknown engagement"); }
      rules := rules + [Rule(id, Strip(target), action, effect)];
      return Ok(|rules|);
    }

    lemma WindowIs(id: int, now: int, parse: Parse)
      ensures id in engagements ==>
        var e, w := engagements[id], WindowStatus(engagements[id], now, parse);
        && (w == NotYetValid <==> Early(e, now, parse))
        && (w == Expired <==> !Early(e, now, parse) && Late(e, now, parse))
    {
    }

    predicate InWindow(id: int, now: int, parse: Parse)
      reads this
    {
      && id in engagements
      && WindowStatus(engagements[id], now, parse) != Expired && WindowStatus(engagements[id], now, parse) != NotYetValid
    }

    /** One pass over the rules of an engagement, stopping at the first that applies. */
    method FirstApplying(id: int, effect: string, target: string, action: string, lib: Lib) returns (found: Option<Rule>)
      ensures found.Some? <==> AnyApplies(rules, id, effect, target, action, lib)
      ensures found.Some? ==>
        && found.value in rules && found.value.engagement == id && found.value.effect == effect
        && (found.value.action == "*" || found.value.action == action) && TargetMatches(target, found.value.target, lib)
      ensures found.Some? ==> exists i :: FirstAt(rules, i, found.value, id, effect, target, action, lib)
    {
      hide Applies;
      var i := 0;
      while i < |rules|
        invariant 0 <= i <= |rules|
        invariant forall j :: 0 <= j < i ==> !Applies(rules[j], id, effect, target, action, lib)
      {
        if Applies(rules[i], id, effect, target, action, lib) {
          assert FirstAt(rules, i, rules[i], id, effect, target, action, lib);
          AppliesIs(rules[i], id, effect, target, action, lib);
          return Some(rules[i]);
        }
        i := i + 1;
      }
      return None;
    }

    method IsTargetAuthorized(id: int, target: string, action: string, now: int, parse: Parse, lib: Lib)
        returns (ok: bool, reason: Reason)
      ensures ok <==> InScope(engagements, rules, id, target, action, now, parse, lib)
      ensures ok <==> reason == Authorized
      ensures reason == UnknownEngagement <==> id !in engagements
      ensures reason == EngagementExpired <==> id in engagements && WindowStatus(engagements[id], now, parse) == Expired
      ensures reason == EngagementNotYetValid <==>
        id in engagements && WindowStatus(engagements[id], now, parse) == NotYetValid
      ensures reason.DeniedBy? <==> InWindow(id, now, parse) && AnyApplies(rules, id, "deny", target, action, lib)
      ensures reason == NoRecord <==>
        && InWindow(id, now, parse) && !AnyApplies(rules, id, "deny", target, action, lib)
        && !AnyApplies(rules, id, "allow", target, action, lib)
      ensures reason.DeniedBy? ==>
        exists r :: && r in rules && r.target == reason.target && r.engagement == id && r.effect == "deny"
                    && (r.action == "*" || r.action == action) && TargetMatches(target, r.target, lib)
      // The same in terms of the stored times and rules.
      ensures id !in engagements ==> !ok
      ensures id in engagements && Early(engagements[id], now, parse) ==> !ok && reason == EngagementNotYetValid
      ensures id in engagements && !Early(engagements[id], now, parse) && Late(engagements[id], now, parse)
        ==> !ok && reason == EngagementExpired
      ensures id in engagements && !Early(engagements[id], now, parse) && !Late(engagements[id], now, parse) ==>
        (ok <==> Ruled(rules, id, "allow", target, action, lib) && !Ruled(rules, id, "deny", target, action, lib))
    {
      WindowIs(id, now, parse);
      RulesAre(rules, id, "allow", target, action, lib);
      RulesAre(rules, id, "deny", target, action, lib);
      hide Applies, AnyApplies, Ruled, WindowStatus, Early, Late, TargetMatches, FirstAt;
      if id !in engagements { return false, UnknownEngagement; }
      var window := WindowStatus(engagements[id], now, parse);
      if window == Expired { return false, EngagementExpired; }
      if window == NotYetValid { return false, EngagementNotYetValid; }
      var deny := FirstApplying(id, "deny", target, action, lib);
      if deny.Some? { return false, DeniedBy(deny.value.target); }
      var allow := FirstApplying(id, "allow", target, action, lib);
      if allow.Some? { return true, Authorized; }
      return false, NoRecord;
    }
  }

  // ---- What the decision depends on ----

  /** The effective rules are compared as sets: order and repetition do not matter; more allow rules and fewer
      deny rules never take a target out of scope. */
  lemma DecisionMonotone(engagements: map<int, Engagement>, less: seq<Rule>, more: seq<Rule>, id: int, target: string,
                         action: string, now: int, parse: Parse, lib: Lib)
    requires forall r :: r in less && r.effect == "allow" ==> r in more
    requires forall r :: r in more && r.effect == "deny" ==> r in less
    ensures InScope(engagements, less, id, target, action, now, parse, lib)
      ==> InScope(engagements, more, id, target, action, now, parse, lib)
  {
    hide WindowStatus, TargetMatches;
  }

  lemma DecisionIsSetBased(engagements: map<int, Engagement>, xs: seq<Rule>, ys: seq<Rule>, id: int, target: string,
                           action: string, now: int, parse: Parse, lib: Lib)
    requires forall r :: r in xs <==> r in ys
    ensures InScope(engagements, xs, id, target, action, now, parse, lib)
      <==> InScope(engagements, ys, id, target, action, now, parse, lib)
  {
    hide InScope;
    DecisionMonotone(engagements, xs, ys, id, target, action, now, parse, lib);
    DecisionMonotone(engagements, ys, xs, id, target, action, now, parse, lib);
  }

  ghost predicate Open(engagements: map<int, Engagement>, id: int, now: int, parse: Parse) {
    && id in engagements
    && (WindowStatus(engagements[id], now, parse) == NoWindow || WindowStatus(engagements[id], now, parse) == Active)
  }

  lemma SameDecision(engagements: map<int, Engagement>, rules: seq<Rule>, id: int, s: string, t: string, action: string,
                     now: int, parse: Parse, lib: Lib)
    requires forall pattern :: TargetMatches(t, pattern, lib) == TargetMatches(s, pattern, lib)
    ensures InScope(engagements, rules, id, t, action, now, parse, lib)
      <==> InScope(engagements, rules, id, s, action, now, parse, lib)
  {
    hide TargetMatches, WindowStatus;
    SameApplies(rules, id, s, t, action, lib);
  }

  /** Rules of other engagements may be added, removed and changed: the decision stays. */
  lemma OtherEngagementsDoNotMatter(engagements: map<int, Engagement>, xs: seq<Rule>, ys: seq<Rule>, id: int, target: string,
                                    action: string, now: int, parse: Parse, lib: Lib)
    requires forall r: Rule :: r.engagement == id ==> (r in xs <==> r in ys)
    ensures InScope(engagements, xs, id, target, action, now, parse, lib)
      <==> InScope(engagements, ys, id, target, action, now, parse, lib)
  {
    RulesAre(xs, id, "allow", target, action, lib);
    RulesAre(xs, id, "deny", target, action, lib);
    RulesAre(ys, id, "allow", target, action, lib);
    RulesAre(ys, id, "deny", target, action, lib);
    SameRuled(xs, ys, id, "allow", target, action, lib);
    SameRuled(xs, ys, id, "deny", target, action, lib);
    hide TargetMatches, WindowStatus, AnyApplies, Applies, Ruled;
  }

  lemma SameRuled(xs: seq<Rule>, ys: seq<Rule>, id: int, effect: string, target: string, action: string, lib: Lib)
    requires forall r: Rule :: r.engagement == id ==> (r in xs <==> r in ys)
    ensures Ruled(xs, id, effect, target, action, lib) <==> Ruled(ys, id, effect, target, action, lib)
  {
    hide TargetMatches;
  }

  /** One allow rule for what the form is taken for. */
  lemma OtherDecision(engagements: map<int, Engagement>, id: int, form: string, h: Host, t: string, action: string,
                      now: int, parse: Parse, lib: Lib)
    requires Open(engagements, id, now, parse) && Apart(form, h, t, lib)
    ensures var rules := [Rule(id, t, "*", "allow")];
      && InScope(engagements, rules, id, form, action, now, parse, lib)
      && !InScope(engagements, rules, id, Bare(h), action, now, parse, lib)
  {
    hide TargetMatches, WindowStatus;
    var rules := [Rule(id, t, "*", "allow")];
    assert Applies(rules[0], id, "allow", form, action, lib) && rules[0] in rules;
  }

  /** Whatever the rules, the form with a port is decided like the bare host: exactly for plain hosts. */
  lemma PortFormDecisionIff(engagements: map<int, Engagement>, id: int, h: Host, digits: string, action: string,
                            now: int, parse: Parse, lib: Lib)
    requires Open(engagements, id, now, parse) && Proper(h) && AllDigits(digits) && IpSyntax(lib)
    ensures (forall rules :: InScope(engagements, rules, id, Bracketed(h) + ":" + digits, action, now, parse, lib)
                        <==> InScope(engagements, rules, id, Bare(h), action, now, parse, lib))
      <==> h.Named?
  {
    var form := Bracketed(h) + ":" + digits;
    hide TargetMatches, InScope, Open, IpSyntax, PlainHost, LiteralText, Apart;
    if h.Named? {
      PortFormMatchesIff(h, digits, lib);
      forall rules ensures InScope(engagements, rules, id, form, action, now, parse, lib)
                      <==> InScope(engagements, rules, id, Bare(h), action, now, parse, lib)
      {
        SameDecision(engagements, rules, id, Bare(h), form, action, now, parse, lib);
      }
    } else {
      PortFormApart(h.address, digits, lib);
      OtherDecision(engagements, id, form, h, PortTarget(h.address, digits), action, now, parse, lib);
    }
  }

  /** Whatever the rules, a URL is decided like the bare host: exactly for plain hosts and accepted literals. */
  lemma UrlDecisionIff(engagements: map<int, Engagement>, id: int, h: Host, scheme: string, port: string, tail: string,
                       action: string, now: int, parse: Parse, lib: Lib)
    requires Open(engagements, id, now, parse) && Proper(h) && Scheme(scheme) && PortPart(port) && Tail(tail) && IpSyntax(lib)
    ensures (forall rules :: InScope(engagements, rules, id, Url(scheme, h, port, tail), action, now, parse, lib)
                        <==> InScope(engagements, rules, id, Bare(h), action, now, parse, lib))
      <==> h.Named? || lib.bracketsOk("[" + Lower(h.address) + "]" + port)
  {
    var form := Url(scheme, h, port, tail);
    hide TargetMatches, InScope, Open, IpSyntax, PlainHost, LiteralText, Apart, Url, Scheme, Tail, PortPart;
    if h.Named? || lib.bracketsOk("[" + Lower(h.address) + "]" + port) {
      UrlMatchesIff(h, scheme, port, tail, lib);
      forall rules ensures InScope(engagements, rules, id, form, action, now, parse, lib)
                      <==> InScope(engagements, rules, id, Bare(h), action, now, parse, lib)
      {
        SameDecision(engagements, rules, id, Bare(h), form, action, now, parse, lib);
      }
    } else {
      RefusedUrlApart(scheme, h.address, port, tail, lib);
      OtherDecision(engagements, id, form, h, Lower(form), action, now, parse, lib);
    }
  }

  /** Everything allowed, one network denied: an address of the network is refused as it stands and in a URL, and
      is in scope in brackets with a port. */
  lemma DenyMissesPortForm(engagements: map<int, Engagement>, id: int, a: string, digits: string, scheme: string,
                           port: string, tail: string, network: string, action: string, now: int, parse: Parse, lib: Lib)
    requires Open(engagements, id, now, parse) && IpSyntax(lib)
    requires LiteralText(a) && AllDigits(digits) && Scheme(scheme) && PortPart(port) && Tail(tail)
    requires lib.bracketsOk("[" + Lower(a) + "]" + port)
    requires HeldBy(a, network, lib)
    ensures var rules := [Rule(id, "*", "*", "allow"), Rule(id, network, "*", "deny")];
      && !InScope(engagements, rules, id, a, action, now, parse, lib)
      && !InScope(engagements, rules, id, Url(scheme, Literal(a), port, tail), action, now, parse, lib)
      && InScope(engagements, rules, id, "[" + a + "]" + ":" + digits, action, now, parse, lib)
  {
    var form := "[" + a + "]" + ":" + digits;
    assert PortTarget(a, digits) != "";
    hide *;
    NetworkMissesPortForm(a, digits, scheme, port, tail, network, lib);
    PortTargetIs(a, digits, lib);
    MatchesAll(form, lib);
    AllButOne(engagements, id, form, network, action, now, parse, lib);
    AllButOne(engagements, id, a, network, action, now, parse, lib);
    AllButOne(engagements, id, Url(scheme, Literal(a), port, tail), network, action, now, parse, lib);
  }

  lemma AllButOne(engagements: map<int, Engagement>, id: int, target: string, denied: string, action: string,
                  now: int, parse: Parse, lib: Lib)
    requires Open(engagements, id, now, parse)
    ensures var rules := [Rule(id, "*", "*", "allow"), Rule(id, denied, "*", "deny")];
      InScope(engagements, rules, id, target, action, now, parse, lib) <==>
        TargetMatches(target, "*", lib) && !TargetMatches(target, denied, lib)
  {
    hide TargetMatches, WindowStatus;
    var rules := [Rule(id, "*", "*", "allow"), Rule(id, denied, "*", "deny")];
    assert rules[0] in rules && rules[1] in rules;
    assert Applies(rules[0], id, "allow", target, action, lib) <==> TargetMatches(target, "*", lib);
    assert Applies(rules[1], id, "deny", target, action, lib) <==> TargetMatches(target, denied, lib);
  }

  lemma MatchesAll(target: string, lib: Lib)
    requires NormalizeTarget(target, lib) != ""
    ensures TargetMatches(target, "*", lib)
  {
    StripSpaceFree("*");
    assert Lower("*") == "*";
  }

  lemma SameApplies(rules: seq<Rule>, id: int, s: string, t: string, action: string, lib: Lib)
    requires forall pattern :: TargetMatches(t, pattern, lib) == TargetMatches(s, pattern, lib)
    ensures forall effect :: AnyApplies(rules, id, effect, t, action, lib) == AnyApplies(rules, id, effect, s, action, lib)
  {
    hide TargetMatches;
    forall effect ensures AnyApplies(rules, id, effect, t, action, lib) == AnyApplies(rules, id, effect, s, action, lib) {
      assert forall r :: Applies(r, id, effect, t, action, lib) == Applies(r, id, effect, s, action, lib);
    }
  }

  /** A deny rule on a name takes everything below the name out of scope, whatever is allowed. */
  lemma DenyCoversSubdomains(engagements: map<int, Engagement>, rules: seq<Rule>, deny: Rule, target: string, action: string,
                             now: int, parse: Parse, lib: Lib)
    requires deny in rules && deny.effect == "deny" && (deny.action == "*" || deny.action == action)
    requires var t, p := NormalizeTarget(target, lib), Lower(Strip(deny.target));
      t != "" && NamePattern(p) && AsText(t, p, lib) && IsSuffix(Labels(p), Labels(t))
    ensures !InScope(engagements, rules, deny.engagement, target, action, now, parse, lib)
  {
    hide NormalizeTarget, Matches, Labels, NamePattern, AsText, IsSuffix;
    NameMatchIff(NormalizeTarget(target, lib), Lower(Strip(deny.target)), lib);
    assert Applies(deny, deny.engagement, "deny", target, action, lib);
  }
}
