/** What rules a set of held rules covers, wildcards included. */
module Escalation {
  import opened Wrappers
  import opened Json
  import Selector
  import opened Text

  // ---------------------------------------------------------------- what one rule covers

  function Strings(v: Json): seq<string> { Selector.Texts(Elements(v)) }

  function Verbs(rule: Json): seq<string> { Strings(At(rule, "verbs")) }

  function Groups(rule: Json): seq<string> { Strings(At(rule, "apiGroups")) }

  function Resources(rule: Json): seq<string> { Strings(At(rule, "resources")) }

  function Names(rule: Json): seq<string> { Strings(At(rule, "resourceNames")) }

  function Urls(rule: Json): seq<string> { Strings(At(rule, "nonResourceURLs")) }

  predicate Has(list: seq<string>, s: string) { "*" in list || s in list }

  /** By name, by `*`, or a subresource by `*`/sub or base/`*`. */
  predicate HasResource(list: seq<string>, resource: string) {
    || Has(list, resource)
    || match SplitOnce(resource, '/')
       case None => false
       case Some(parts) => "*/" + parts.1 in list || parts.0 + "/*" in list
  }

  /** For `name`, or for every name when there is none. */
  predicate HasName(list: seq<string>, name: Option<string>) { list == [] || (name.Some? && name.value in list) }

  predicate CoversResource(rule: Json, group: string, resource: string, verb: string, name: Option<string>) {
    && Has(Verbs(rule), verb) && Has(Groups(rule), group)
    && HasResource(Resources(rule), resource) && HasName(Names(rule), name)
  }

  predicate EndsWithStar(u: string) { u != "" && u[|u| - 1] == '*' }

  function TrimStars(u: string): string { if EndsWithStar(u) then TrimStars(u[..|u| - 1]) else u }

  predicate MatchesUrl(u: string, url: string) { u == url || (EndsWithStar(u) && TrimStars(u) <= url) }

  predicate HasUrl(list: seq<string>, url: string) { exists i :: 0 <= i < |list| && MatchesUrl(list[i], url) }

  predicate CoversUrl(rule: Json, url: string, verb: string) { Has(Verbs(rule), verb) && HasUrl(Urls(rule), url) }

  // ---------------------------------------------------------------- what a set of rules leaves uncovered

  datatype Missing =
    | Resource(group: string, resource: string, verb: string, name: Option<string>)
    | Url(url: string, verb: string)

  /** Some rule covers a permission, or a request, wildcards or not. */
  predicate Holds(held: seq<Json>, m: Missing) {
    match m
    case Resource(g, r, v, n) => exists i :: 0 <= i < |held| && CoversResource(held[i], g, r, v, n)
    case Url(u, v) => exists i :: 0 <= i < |held| && CoversUrl(held[i], u, v)
  }

  /** A name a rule spells out: one of its names, or none when it has none. */
  predicate Spells(names: seq<string>, name: Option<string>) {
    if name.None? then names == [] else name.value in names
  }

  /** One of the permissions a rule spells out. */
  predicate Grants(rule: Json, m: Missing) {
    match m
    case Resource(g, r, v, n) =>
      g in Groups(rule) && r in Resources(rule) && v in Verbs(rule) && Spells(Names(rule), n)
    case Url(u, v) => u in Urls(rule) && v in Verbs(rule)
  }

  method HeldBy(held: seq<Json>, m: Missing) returns (yes: bool)
    ensures yes <==> Holds(held, m)
  {
    for n := 0 to |held|
      invariant forall i | 0 <= i < n ::
        !(if m.Resource? then CoversResource(held[i], m.group, m.resource, m.verb, m.name) else CoversUrl(held[i], m.url, m.verb))
    {
      if m.Resource? && CoversResource(held[n], m.group, m.resource, m.verb, m.name) {
        return true;
      }
      if m.Url? && CoversUrl(held[n], m.url, m.verb) {
        return true;
      }
    }
    return false;
  }

  predicate Among(m: Missing, groups: seq<string>, resources: seq<string>, verbs: seq<string>, names: seq<string>) {
    m.Resource? && m.group in groups && m.resource in resources && m.verb in verbs && Spells(names, m.name)
  }

  /** The uncovered among the permissions of these groups, resources, verbs and names. */
  ghost predicate Gaps(out: seq<Missing>, held: seq<Json>, groups: seq<string>, resources: seq<string>, verbs: seq<string>, names: seq<string>) {
    forall m :: m in out <==> Among(m, groups, resources, verbs, names) && !Holds(held, m)
  }

  method ByName(held: seq<Json>, group: string, resource: string, verb: string, names: seq<string>) returns (out: seq<Missing>)
    ensures Gaps(out, held, [group], [resource], [verb], names)
  {
    hide Holds;
    out := [];
    if names == [] {
      var m := Resource(group, resource, verb, None);
      var yes := HeldBy(held, m);
      return if yes then [] else [m];
    }
    for n := 0 to |names|
      invariant forall m :: m in out <==> Among(m, [group], [resource], [verb], names[..n]) && m.name.Some? && !Holds(held, m)
    {
      var m := Resource(group, resource, verb, Some(names[n]));
      assert names[..n + 1] == names[..n] + [names[n]];
      var yes := HeldBy(held, m);
      if !yes {
        out := out + [m];
      }
    }
    assert names[..|names|] == names;
  }

  method ByVerb(held: seq<Json>, group: string, resource: string, verbs: seq<string>, names: seq<string>) returns (out: seq<Missing>)
    ensures Gaps(out, held, [group], [resource], verbs, names)
  {
    hide Holds, Spells;
    out := [];
    for n := 0 to |verbs|
      invariant Gaps(out, held, [group], [resource], verbs[..n], names)
    {
      assert verbs[..n + 1] == verbs[..n] + [verbs[n]];
      var more := ByName(held, group, resource, verbs[n], names);
      out := out + more;
    }
    assert verbs[..|verbs|] == verbs;
  }

  method ByResource(held: seq<Json>, group: string, resources: seq<string>, verbs: seq<string>, names: seq<string>)
    returns (out: seq<Missing>)
    ensures Gaps(out, held, [group], resources, verbs, names)
  {
    hide Holds, Spells;
    out := [];
    for n := 0 to |resources|
      invariant Gaps(out, held, [group], resources[..n], verbs, names)
    {
      assert resources[..n + 1] == resources[..n] + [resources[n]];
      var more := ByVerb(held, group, resources[n], verbs, names);
      out := out + more;
    }
    assert resources[..|resources|] == resources;
  }

  method ByGroup(held: seq<Json>, groups: seq<string>, resources: seq<string>, verbs: seq<string>, names: seq<string>)
    returns (out: seq<Missing>)
    ensures Gaps(out, held, groups, resources, verbs, names)
  {
    hide Holds, Spells;
    out := [];
    for n := 0 to |groups|
      invariant Gaps(out, held, groups[..n], resources, verbs, names)
    {
      assert groups[..n + 1] == groups[..n] + [groups[n]];
      var more := ByResource(held, groups[n], resources, verbs, names);
      out := out + more;
    }
    assert groups[..|groups|] == groups;
  }

  method ByUrl(heldUrls: seq<Json>, urls: seq<string>, verbs: seq<string>) returns (out: seq<Missing>)
    ensures forall m :: m in out <==> m.Url? && m.url in urls && m.verb in verbs && !Holds(heldUrls, m)
  {
    hide Holds;
    out := [];
    for n := 0 to |urls|
      invariant forall m :: m in out <==> m.Url? && m.url in urls[..n] && m.verb in verbs && !Holds(heldUrls, m)
    {
      assert urls[..n + 1] == urls[..n] + [urls[n]];
      for k := 0 to |verbs|
        invariant forall m :: m in out <==>
          m.Url? && !Holds(heldUrls, m) && ((m.url in urls[..n] && m.verb in verbs) || (m.url == urls[n] && m.verb in verbs[..k]))
      {
        assert verbs[..k + 1] == verbs[..k] + [verbs[k]];
        var m := Url(urls[n], verbs[k]);
        var yes := HeldBy(heldUrls, m);
        if !yes {
          out := out + [m];
        }
      }
      assert verbs[..|verbs|] == verbs;
    }
    assert urls[..|urls|] == urls;
  }

  predicate GrantedBy(rules: seq<Json>, m: Missing) { exists i :: 0 <= i < |rules| && Grants(rules[i], m) }

  /** Exactly the permissions the rules spell out that the held rules do not cover. */
  method Uncovered(held: seq<Json>, heldUrls: seq<Json>, rules: seq<Json>) returns (missing: seq<Missing>)
    ensures forall m :: m in missing <==> GrantedBy(rules, m) && !Holds(if m.Resource? then held else heldUrls, m)
  {
    hide Holds, Strings, Spells;
    missing := [];
    for n := 0 to |rules|
      invariant forall m :: m in missing <==> GrantedBy(rules[..n], m) && !Holds(if m.Resource? then held else heldUrls, m)
    {
      var rule := rules[n];
      var resources := ByGroup(held, Groups(rule), Resources(rule), Verbs(rule), Names(rule));
      var urls := ByUrl(heldUrls, Urls(rule), Verbs(rule));
      GrantsGrow(rules, n);
      missing := missing + resources + urls;
    }
    assert rules[..|rules|] == rules;
  }

  lemma GrantsGrow(rules: seq<Json>, n: nat)
    requires n < |rules|
    ensures forall m :: GrantedBy(rules[..n + 1], m) <==> GrantedBy(rules[..n], m) || Grants(rules[n], m)
  {
    hide Grants;
    forall m ensures GrantedBy(rules[..n + 1], m) <==> GrantedBy(rules[..n], m) || Grants(rules[n], m) {
      if Grants(rules[n], m) {
        assert rules[..n + 1][n] == rules[n];
      }
      if i :| 0 <= i < n && Grants(rules[..n][i], m) {
        assert rules[..n + 1][i] == rules[..n][i];
      }
    }
  }

  // ---------------------------------------------------------------- coverage

  /** What `Uncovered` returns nothing for. */
  ghost predicate AllHeld(held: seq<Json>, heldUrls: seq<Json>, rules: seq<Json>) {
    forall m | GrantedBy(rules, m) :: Holds(if m.Resource? then held else heldUrls, m)
  }

  /** Each permission the held rules spell out for the literal two-star pattern they also cover for every resource. */
  ghost predicate StarsAreHeld(held: seq<Json>) {
    forall m | GrantedBy(held, m) && m.Resource? && m.resource == "*/*" :: Holds(held, Resource(m.group, "*", m.verb, m.name))
  }

  /** One resource pattern stands for another or for a resource. */
  predicate Stands(w: string, resource: string) {
    || w == "*" || w == resource
    || match SplitOnce(resource, '/')
       case None => false
       case Some(parts) => w == "*/" + parts.1 || w == parts.0 + "/*"
  }

  lemma HasResourceIff(list: seq<string>, resource: string)
    ensures HasResource(list, resource) <==> exists w :: w in list && Stands(w, resource)
  {
  }

  lemma SplitSub(sub: string, base: string)
    requires '/' !in base
    ensures SplitOnce("*/" + sub, '/') == Some(("*", sub)) && SplitOnce(base + "/*", '/') == Some((base, "*"))
  {
    SplitBase("*", sub);
    SplitBase(base, "*");
    assert "*" + "/" + sub == "*/" + sub && base + "/" + "*" == base + "/*";
  }

  /** Patterns compose, but for the literal two-star pattern over a subresource. */
  lemma StandsComposes(h: string, w: string, resource: string)
    requires Stands(h, w) && Stands(w, resource)
    ensures Stands(h, resource) || h == "*/*"
  {
    if w == "*" {
      assert SplitOnce("*", '/') == None;
    } else if w != resource {
      var parts := SplitOnce(resource, '/').value;
      SplitSub(parts.1, parts.0);
      assert "*" + "/*" == "*/*" && "*/" + "*" == "*/*";
    }
  }

  lemma ViaText(list: seq<string>, s: string) returns (via: string)
    requires Has(list, s)
    ensures via in list && forall held | Has(held, via) :: Has(held, s)
  {
    via := if "*" in list then "*" else s;
  }

  lemma ViaResource(list: seq<string>, resource: string) returns (via: string)
    requires HasResource(list, resource)
    ensures via in list && forall held | HasResource(held, via) :: HasResource(held, resource) || "*/*" in held
  {
    HasResourceIff(list, resource);
    hide Stands, HasResource;
    via :| via in list && Stands(via, resource);
    forall held | HasResource(held, via) ensures HasResource(held, resource) || "*/*" in held {
      HasResourceIff(held, via);
      var h :| h in held && Stands(h, via);
      StandsComposes(h, via, resource);
      HasResourceIff(held, resource);
    }
  }

  /** What a rule with the two-star pattern covers besides, some held rule covers for every resource. */
  lemma OutrightIsHeld(held: seq<Json>, k: nat, m: Missing)
    requires StarsAreHeld(held) && k < |held| && "*/*" in Resources(held[k]) && m.Resource?
    requires Has(Verbs(held[k]), m.verb) && Has(Groups(held[k]), m.group) && HasName(Names(held[k]), m.name)
    ensures Holds(held, m)
  {
    var rule := held[k];
    var v := ViaText(Verbs(rule), m.verb);
    var g := ViaText(Groups(rule), m.group);
    var n := if Names(rule) == [] then None else m.name;
    hide Has, HasResource, Resources, Groups, Verbs, Names;
    assert Grants(rule, Resource(g, "*/*", v, n));
    assert GrantedBy(held, Resource(g, "*/*", v, n));
    var j :| 0 <= j < |held| && CoversResource(held[j], g, "*", v, n);
    OutrightCovers(Resources(held[j]), m.resource);
    assert CoversResource(held[j], m.group, m.resource, m.verb, m.name);
  }

  lemma OutrightCovers(list: seq<string>, resource: string)
    ensures HasResource(list, "*") ==> HasResource(list, resource)
  {
    assert SplitOnce("*", '/') == None;
  }

  /** Held rules that cover everything a rule spells out cover every request it covers. */
  lemma ResourceIsHeld(held: seq<Json>, heldUrls: seq<Json>, rules: seq<Json>, i: nat, m: Missing)
    requires AllHeld(held, heldUrls, rules) && StarsAreHeld(held) && i < |rules|
    requires m.Resource? && CoversResource(rules[i], m.group, m.resource, m.verb, m.name)
    ensures Holds(held, m)
  {
    var rule := rules[i];
    var v := ViaText(Verbs(rule), m.verb);
    var g := ViaText(Groups(rule), m.group);
    var r := ViaResource(Resources(rule), m.resource);
    var n := if Names(rule) == [] then None else m.name;
    hide Has, HasResource, Resources, Groups, Verbs, Names, StarsAreHeld;
    assert Grants(rule, Resource(g, r, v, n));
    assert GrantedBy(rules, Resource(g, r, v, n));
    var k :| 0 <= k < |held| && CoversResource(held[k], g, r, v, n);
    if "*/*" in Resources(held[k]) {
      OutrightIsHeld(held, k, m);
    } else {
      assert CoversResource(held[k], m.group, m.resource, m.verb, m.name);
    }
  }

  lemma {:induction false} TrimmedPrefix(u: string)
    ensures TrimStars(u) <= u && !EndsWithStar(TrimStars(u))
    ensures forall k | |TrimStars(u)| <= k < |u| :: u[k] == '*'
  {
    if EndsWithStar(u) {
      TrimmedPrefix(u[..|u| - 1]);
    }
  }

  lemma ShorterPrefix(p: string, q: string, u: string)
    requires p <= u && q <= u && !EndsWithStar(p) && forall k | |q| <= k < |u| :: u[k] == '*'
    ensures p <= q
  {
    assert p != "" ==> p[|p| - 1] == u[|p| - 1];
  }

  /** Trailing-star prefixes compose. */
  lemma UrlsCompose(h: string, u: string, url: string)
    requires MatchesUrl(h, u) && MatchesUrl(u, url)
    ensures MatchesUrl(h, url)
  {
    if h != u && u != url {
      TrimmedPrefix(h);
      TrimmedPrefix(u);
      var p, q := TrimStars(h), TrimStars(u);
      ShorterPrefix(p, q, u);
    }
  }

  lemma UrlIsHeld(held: seq<Json>, heldUrls: seq<Json>, rules: seq<Json>, i: nat, m: Missing)
    requires AllHeld(held, heldUrls, rules) && i < |rules| && m.Url? && CoversUrl(rules[i], m.url, m.verb)
    ensures Holds(heldUrls, m)
  {
    hide Has, Verbs, Urls, MatchesUrl, Resources, Groups, Names;
    var rule := rules[i];
    var v := ViaText(Verbs(rule), m.verb);
    var j :| 0 <= j < |Urls(rule)| && MatchesUrl(Urls(rule)[j], m.url);
    var u := Urls(rule)[j];
    assert Grants(rule, Url(u, v));
    assert GrantedBy(rules, Url(u, v));
    var k :| 0 <= k < |heldUrls| && CoversUrl(heldUrls[k], u, v);
    var l :| 0 <= l < |Urls(heldUrls[k])| && MatchesUrl(Urls(heldUrls[k])[l], u);
    UrlsCompose(Urls(heldUrls[k])[l], u, m.url);
    assert CoversUrl(heldUrls[k], m.url, m.verb);
  }

  /** Nothing uncovered: every request any new rule covers, wildcards or not, a held rule covers. */
  lemma CoverageIsSound(held: seq<Json>, heldUrls: seq<Json>, rules: seq<Json>, m: Missing)
    requires AllHeld(held, heldUrls, rules) && (m.Resource? ==> StarsAreHeld(held)) && Holds(rules, m)
    ensures Holds(if m.Resource? then held else heldUrls, m)
  {
    match m
    case Resource(g, r, v, n) =>
      var i :| 0 <= i < |rules| && CoversResource(rules[i], g, r, v, n);
      ResourceIsHeld(held, heldUrls, rules, i, m);
    case Url(u, v) =>
      var i :| 0 <= i < |rules| && CoversUrl(rules[i], u, v);
      UrlIsHeld(held, heldUrls, rules, i, m);
  }

  lemma GrantedIsCovered(rules: seq<Json>, m: Missing)
    requires GrantedBy(rules, m)
    ensures Holds(rules, m)
  {
    var i :| 0 <= i < |rules| && Grants(rules[i], m);
    match m
    case Resource(g, r, v, n) => assert CoversResource(rules[i], g, r, v, n);
    case Url(u, v) =>
      var k :| 0 <= k < |Urls(rules[i])| && Urls(rules[i])[k] == u;
      assert MatchesUrl(Urls(rules[i])[k], u);
      assert CoversUrl(rules[i], u, v);
  }

  /** Every set of rules covers itself. */
  lemma CoverageIsReflexive(rules: seq<Json>)
    ensures AllHeld(rules, rules, rules)
  {
    forall m | GrantedBy(rules, m) ensures Holds(rules, m) {
      GrantedIsCovered(rules, m);
    }
  }

  /** Coverage composes. */
  lemma CoverageIsTransitive(a: seq<Json>, b: seq<Json>, c: seq<Json>)
    requires AllHeld(a, a, b) && AllHeld(b, b, c) && StarsAreHeld(a)
    ensures AllHeld(a, a, c)
  {
    forall m | GrantedBy(c, m) ensures Holds(a, m) {
      CoverageIsSound(a, a, b, m);
    }
  }

  // ---------------------------------------------------------------- exactly when coverage is sound

  function OneRule(group: string, resource: string, verb: string, name: Option<string>): Json {
    Object(map[
      "apiGroups" := Array([String(group)]), "resources" := Array([String(resource)]), "verbs" := Array([String(verb)]),
      "resourceNames" := Array(if name.None? then [] else [String(name.value)])])
  }

  lemma OneText(s: string)
    ensures Strings(Array([String(s)])) == [s] && Strings(Array([])) == [] && Strings(Null) == []
  {
    var one := [String(s)];
    assert one[1..] == [];
    assert Selector.Texts(one) == [s] + Selector.Texts(one[1..]);
  }

  lemma OneRuleLists(g: string, r: string, v: string, n: Option<string>)
    ensures var rule := OneRule(g, r, v, n);
            && Groups(rule) == [g] && Resources(rule) == [r] && Verbs(rule) == [v] && Urls(rule) == []
            && Names(rule) == if n.None? then [] else [n.value]
  {
    OneText(g);
    OneText(r);
    OneText(v);
    if n.Some? {
      OneText(n.value);
    }
    hide Strings;
  }

  /** A rule of one permission spells out just that, and covers what its resource pattern stands for. */
  lemma OneRuleIs(g: string, r: string, v: string, n: Option<string>)
    ensures forall m :: GrantedBy([OneRule(g, r, v, n)], m) <==> m == Resource(g, r, v, n)
    ensures forall resource :: Holds([OneRule(g, r, v, n)], Resource(g, resource, v, n)) <==> HasResource([r], resource)
  {
    OneRuleLists(g, r, v, n);
    hide Groups, Resources, Verbs, Names, Urls, HasResource, OneRule;
    var rules := [OneRule(g, r, v, n)];
    forall m ensures GrantedBy(rules, m) <==> m == Resource(g, r, v, n) {
      assert GrantedBy(rules, m) <==> Grants(rules[0], m);
    }
    forall resource ensures Holds(rules, Resource(g, resource, v, n)) <==> HasResource([r], resource) {
      assert Holds(rules, Resource(g, resource, v, n)) <==> CoversResource(rules[0], g, resource, v, n);
    }
  }

  /** The two-star pattern stands for every base with a star, but not for that base's subresources. */
  lemma TwoStars(base: string, sub: string)
    requires '/' !in base
    ensures HasResource(["*/*"], base + "/*") && HasResource([base + "/*"], base + "/" + sub)
    ensures HasResource(["*/*"], base + "/" + sub) <==> base == "*" || sub == "*"
  {
    SplitSub(sub, base);
    SplitBase(base, sub);
    assert "*/" + "*" == "*/*";
    var resource, list := base + "/" + sub, ["*/*"];
    assert "*/" + sub == "*/*" <==> sub == "*" by {
      assert ("*/" + sub)[2..] == sub && "*/*"[2..] == "*";
    }
    assert base + "/*" == "*/*" <==> base == "*" by {
      assert (base + "/*")[..|base|] == base && (|base| == 1 ==> "*/*"[..|base|] == "*");
    }
    assert resource == "*/*" ==> base == "*" by {
      if resource == "*/*" {
        SplitBase("*", "*");
        assert "*" + "/" + "*" == "*/*";
      }
    }
    assert "*" in list <==> list[0] == "*";
  }

  /** Held for two stars alone: a rule for a base's subresources is covered, and what it covers is not. */
  lemma TwoStarsLeaveOut(g: string, v: string, n: Option<string>, base: string, sub: string)
    requires '/' !in base && base != "*" && sub != "*"
    ensures var held, rules, m := [OneRule(g, "*/*", v, n)], [OneRule(g, base + "/*", v, n)], Resource(g, base + "/" + sub, v, n);
            AllHeld(held, [], rules) && Holds(rules, m) && !Holds(held, m)
  {
    hide OneRule, HasResource, Holds, GrantedBy;
    OneRuleIs(g, "*/*", v, n);
    OneRuleIs(g, base + "/*", v, n);
    TwoStars(base, sub);
  }

  function Longest(list: seq<string>): (n: nat)
    ensures forall s | s in list :: |s| <= n
  {
    if list == [] then 0 else if |list[0]| > Longest(list[1..]) then |list[0]| else Longest(list[1..])
  }

  function LongestOf(held: seq<Json>): (n: nat)
    ensures forall i, s | 0 <= i < |held| && s in Resources(held[i]) :: |s| <= n
  {
    if held == [] then 0
    else
      var first, rest := Longest(Resources(held[0])), LongestOf(held[1..]);
      assert forall i | 1 <= i < |held| :: held[i] == held[1..][i - 1];
      if first > rest then first else rest
  }

  /** A name longer than every pattern held. */
  function Unheard(held: seq<Json>): (s: string)
    ensures '/' !in s && |s| == LongestOf(held) + 1
  {
    seq(LongestOf(held) + 1, _ => 'a')
  }

  /** An unheard subresource of an unheard base is covered only outright. */
  lemma UnheardIsOutright(held: seq<Json>, g: string, v: string, n: Option<string>)
    ensures var s := Unheard(held); Holds(held, Resource(g, s + "/" + s, v, n)) ==> Holds(held, Resource(g, "*", v, n))
  {
    hide Verbs, Groups, Names, Has, Resources;
    var s := Unheard(held);
    SplitBase(s, s);
    if i :| 0 <= i < |held| && CoversResource(held[i], g, s + "/" + s, v, n) {
      var list := Resources(held[i]);
      assert forall t | t in list :: |t| < |s|;
      assert |"*/" + s| > |s| && |s + "/*"| > |s| && |s + "/" + s| > |s|;
      HasOutright(list, s + "/" + s);
      assert CoversResource(held[i], g, "*", v, n);
    }
  }

  lemma HasOutright(list: seq<string>, s: string)
    requires s !in list && Has(list, s)
    ensures HasResource(list, "*")
  {
  }

  lemma HasItself(s: string)
    ensures HasResource([s], s)
  {
  }

  ghost predicate Sound(held: seq<Json>) {
    forall heldUrls, rules, m | AllHeld(held, heldUrls, rules) && Holds(rules, m) && m.Resource? :: Holds(held, m)
  }

  ghost predicate Composes(held: seq<Json>) {
    forall b, c | AllHeld(held, held, b) && AllHeld(b, b, c) :: AllHeld(held, held, c)
  }

  /** The new rule for an unheard base's subresources shows every two-star permission not held outright. */
  lemma UnheardIsAsked(held: seq<Json>, m: Missing) returns (b: seq<Json>, c: seq<Json>, asked: Missing)
    requires GrantedBy(held, m) && m.Resource? && m.resource == "*/*"
    ensures AllHeld(held, held, b) && AllHeld(b, b, c) && GrantedBy(c, asked) && Holds(b, asked) && asked.Resource?
    ensures Holds(held, asked) ==> Holds(held, Resource(m.group, "*", m.verb, m.name))
  {
    hide OneRule, HasResource, Holds, GrantedBy, Unheard, Resources;
    var s := Unheard(held);
    var g, v, n := m.group, m.verb, m.name;
    b, c, asked := [OneRule(g, s + "/*", v, n)], [OneRule(g, s + "/" + s, v, n)], Resource(g, s + "/" + s, v, n);
    OneRuleIs(g, s + "/*", v, n);
    OneRuleIs(g, s + "/" + s, v, n);
    TwoStars(s, s);
    UnheardIsOutright(held, g, v, n);
    CoversBase(held, m, s);
    HasItself(s + "/" + s);
  }

  lemma StarsHaveBase(list: seq<string>, base: string)
    requires "*/*" in list && '/' !in base
    ensures HasResource(list, base + "/*")
  {
    SplitSub("", base);
    assert "*/" + "*" == "*/*";
  }

  lemma CoversBase(held: seq<Json>, m: Missing, base: string)
    requires GrantedBy(held, m) && m.Resource? && m.resource == "*/*" && '/' !in base
    ensures Holds(held, Resource(m.group, base + "/*", m.verb, m.name))
  {
    hide HasResource, Resources, Groups, Verbs, Names, Stands;
    var i :| 0 <= i < |held| && Grants(held[i], m);
    StarsHaveBase(Resources(held[i]), base);
    assert CoversResource(held[i], m.group, base + "/*", m.verb, m.name);
  }

  /**
   * Whatever rules are covered, every request they cover is held, and so is whatever they cover in turn,
   * exactly if the two-star permissions are held for every resource.
   */
  lemma CoverageIff(held: seq<Json>)
    ensures Sound(held) <==> StarsAreHeld(held)
    ensures Composes(held) <==> StarsAreHeld(held)
  {
    hide Holds, GrantedBy;
    if StarsAreHeld(held) {
      forall heldUrls, rules, m | AllHeld(held, heldUrls, rules) && Holds(rules, m) && m.Resource? ensures Holds(held, m) {
        CoverageIsSound(held, heldUrls, rules, m);
      }
      forall b, c | AllHeld(held, held, b) && AllHeld(b, b, c) ensures AllHeld(held, held, c) {
        CoverageIsTransitive(held, b, c);
      }
    }
    forall m | GrantedBy(held, m) && m.Resource? && m.resource == "*/*"
      ensures Sound(held) || Composes(held) ==> Holds(held, Resource(m.group, "*", m.verb, m.name))
    {
      var b, c, asked := UnheardIsAsked(held, m);
    }
  }

  /** Without the literal two-star pattern there is nothing to check. */
  lemma NoStarsAreHeld(held: seq<Json>)
    requires forall i | 0 <= i < |held| :: "*/*" !in Resources(held[i])
    ensures Sound(held) && Composes(held)
  {
    CoverageIff(held);
  }
}
