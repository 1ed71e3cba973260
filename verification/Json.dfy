/** JSON documents as the source's `serde_json::Value`: an object's keys are unique and unordered here. */
module Json {
  import opened Wrappers

  datatype Json =
    | Null
    | Bool(b: bool)
    | Number(n: int)
    | String(s: string)
    | Array(items: seq<Json>)
    | Object(members: map<string, Json>)

  /** `value[key]`: a missing key, or a value that is no object, reads as null. */
  function At(v: Json, key: string): Json {
    if v.Object? && key in v.members then v.members[key] else Null
  }

  /** `value.as_str().unwrap_or("")`. */
  function TextOr(v: Json, otherwise: string): string {
    if v.String? then v.s else otherwise
  }

  /** The elements of `value.as_array().into_iter().flatten()`. */
  function Elements(v: Json): seq<Json> {
    if v.Array? then v.items else []
  }

  // The order in which an object's keys are visited: by code point, shorter first.

  predicate LexLe(a: string, b: string) {
    a == [] || (b != [] && (a[0] < b[0] || (a[0] == b[0] && LexLe(a[1..], b[1..]))))
  }

  lemma LexTotal(a: string, b: string)
    ensures LexLe(a, b) || LexLe(b, a)
  {
  }

  lemma {:induction false} LexAntisymmetric(a: string, b: string)
    requires LexLe(a, b) && LexLe(b, a)
    ensures a == b
  {
    if a != [] && b != [] {
      LexAntisymmetric(a[1..], b[1..]);
      assert a == [a[0]] + a[1..] && b == [b[0]] + b[1..];
    }
  }

  lemma {:induction false} LexTransitive(a: string, b: string, c: string)
    requires LexLe(a, b) && LexLe(b, c)
    ensures LexLe(a, c)
  {
    if a != [] && b != [] && c != [] && a[0] == b[0] == c[0] {
      LexTransitive(a[1..], b[1..], c[1..]);
    }
  }

  lemma {:induction false} LeastExists(keys: set<string>) returns (least: string)
    requires keys != {}
    ensures least in keys && forall k | k in keys :: LexLe(least, k)
  {
    var k :| k in keys;
    if keys == {k} {
      LexTotal(k, k);
      least := k;
    } else {
      var other := LeastExists(keys - {k});
      LexTotal(k, other);
      LexTotal(k, k);
      least := if LexLe(k, other) then k else other;
      forall x | x in keys ensures LexLe(least, x) {
        if x != k { LexTransitive(least, other, x); }
      }
    }
  }

  /** The key an in-order visit of the object meets first. */
  function Least(keys: set<string>): (least: string)
    requires keys != {}
    ensures least in keys && forall k | k in keys :: LexLe(least, k)
  {
    assert exists k :: k in keys && forall x | x in keys :: LexLe(k, x) by {
      var witnessKey := LeastExists(keys);
    }
    assert forall a, b | a in keys && b in keys && LexLe(a, b) && LexLe(b, a) :: a == b by {
      forall a, b | a in keys && b in keys && LexLe(a, b) && LexLe(b, a) ensures a == b {
        LexAntisymmetric(a, b);
      }
    }
    var k :| k in keys && forall x | x in keys :: LexLe(k, x);
    k
  }
}
