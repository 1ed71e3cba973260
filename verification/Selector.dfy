/** Label selectors: the exact matcher, and the inverse-index anchors that approximate it. */
module Selector {
  import opened Json
  import opened Wrappers

  /** `labels.get(key)`. */
  function Get(labels: Json, key: string): Option<Json> {
    if labels.Object? && key in labels.members then Some(labels.members[key]) else None
  }

  /** `labels.get(key).and_then(Value::as_str)`. */
  function GetText(labels: Json, key: string): Option<string> {
    match Get(labels, key)
    case Some(String(s)) => Some(s)
    case _ => None
  }

  /** The string elements of a list, in order. */
  function Texts(items: seq<Json>): (r: seq<string>)
    ensures forall s :: s in r <==> String(s) in items
  {
    if items == [] then []
    else (if items[0].String? then [items[0].s] else []) + Texts(items[1..])
  }

  predicate ExpressionHolds(expr: Json, labels: Json) {
    var values := Texts(Elements(At(expr, "values")));
    var have := GetText(labels, TextOr(At(expr, "key"), ""));
    match TextOr(At(expr, "operator"), "")
    case "In" => have.Some? && have.value in values
    case "NotIn" => have.None? || have.value !in values
    case "Exists" => have.Some?
    case "DoesNotExist" => have.None?
    case _ => false
  }

  /** Does the label set satisfy the selector? A selector that is no object selects nothing, `{}` everything. */
  predicate Matches(selector: Json, labels: Json) {
    && selector.Object?
    && (var required := At(selector, "matchLabels");
        required.Object? ==>
          forall k | k in required.members :: Get(labels, k) == Some(required.members[k]))
    && forall expr | expr in Elements(At(selector, "matchExpressions")) :: ExpressionHolds(expr, labels)
  }

  /** Can this clause anchor an inverse index? */
  predicate IsAnchorExpression(expr: Json) {
    At(expr, "operator") == String("In") && At(expr, "key").String? && At(expr, "values").Array?
  }

  function Pairs(key: string, values: seq<string>): (r: seq<(string, string)>)
    ensures forall p :: p in r <==> p.0 == key && p.1 in values
  {
    if values == [] then [] else [(key, values[0])] + Pairs(key, values[1..])
  }

  /** The anchors of the first usable `In` clause. */
  function ExpressionAnchors(exprs: seq<Json>): seq<(string, string)> {
    if exprs == [] then []
    else if IsAnchorExpression(exprs[0]) then
      Pairs(At(exprs[0], "key").s, Texts(At(exprs[0], "values").items))
    else ExpressionAnchors(exprs[1..])
  }

  function TextKeys(members: map<string, Json>): set<string> {
    set k | k in members && members[k].String?
  }

  /** One required positive clause as `(label, value)` pairs; empty when the selector has none. */
  function Anchors(selector: Json): seq<(string, string)> {
    var required := At(selector, "matchLabels");
    if required.Object? && TextKeys(required.members) != {} then
      var k := Least(TextKeys(required.members));
      [(k, required.members[k].s)]
    else ExpressionAnchors(Elements(At(selector, "matchExpressions")))
  }

  lemma {:induction false} ExpressionAnchorsComplete(exprs: seq<Json>, labels: Json)
    requires forall expr | expr in exprs :: ExpressionHolds(expr, labels)
    ensures
      var anchors := ExpressionAnchors(exprs);
      anchors == [] || exists p :: p in anchors && GetText(labels, p.0) == Some(p.1)
  {
    if exprs != [] {
      if IsAnchorExpression(exprs[0]) {
        var key := At(exprs[0], "key").s;
        assert ExpressionHolds(exprs[0], labels);
        assert (key, GetText(labels, key).value) in ExpressionAnchors(exprs);
      } else {
        ExpressionAnchorsComplete(exprs[1..], labels);
      }
    }
  }

  /**
   * Anchor completeness: a selector the exact matcher accepts is found either under one of
   * the pairs the labels carry, or, having no anchor at all, under its namespace's fallback.
   */
  lemma AnchorsComplete(selector: Json, labels: Json)
    requires Matches(selector, labels)
    ensures Anchors(selector) == []
         || exists p :: p in Anchors(selector) && GetText(labels, p.0) == Some(p.1)
  {
    var required := At(selector, "matchLabels");
    if required.Object? && TextKeys(required.members) != {} {
      var k := Least(TextKeys(required.members));
      assert (k, required.members[k].s) in Anchors(selector);
      assert Get(labels, k) == Some(required.members[k]);
    } else {
      ExpressionAnchorsComplete(Elements(At(selector, "matchExpressions")), labels);
    }
  }
}
