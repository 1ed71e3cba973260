/** The text of a cron schedule: five fields, each standing for a set of values. */
module CronText {
  import opened Wrappers
  import opened Division
  import opened Text

  // ---------------------------------------------------------------- text

  /** `char::is_whitespace`. */
  predicate IsSpace(c: char) {
    c in {' ', '\t', '\n', '\U{000B}', '\U{000C}', '\r', '\U{0085}', '\U{00A0}', '\U{1680}',
          '\U{2028}', '\U{2029}', '\U{202F}', '\U{205F}', '\U{3000}'} || '\U{2000}' <= c <= '\U{200A}'
  }

  function WordLength(s: string): (n: nat)
    ensures n <= |s|
  {
    if s == "" || IsSpace(s[0]) then 0 else WordLength(s[1..]) + 1
  }

  /** `split_whitespace`. */
  function Words(s: string): seq<string>
    decreases |s|
  {
    if s == "" then []
    else if IsSpace(s[0]) then Words(s[1..])
    else [s[..WordLength(s)]] + Words(s[WordLength(s)..])
  }

  /** No field holds white space, so trimming a part of one changes nothing. */
  lemma {:induction false} WordsAreSolid(s: string, w: string, c: char)
    requires w in Words(s) && c in w
    ensures !IsSpace(c)
    decreases |s|
  {
    if IsSpace(s[0]) {
      WordsAreSolid(s[1..], w, c);
    } else if w == s[..WordLength(s)] {
      WordIsSolid(s, c);
    } else {
      WordsAreSolid(s[WordLength(s)..], w, c);
    }
  }

  lemma {:induction false} WordIsSolid(s: string, c: char)
    requires c in s[..WordLength(s)]
    ensures !IsSpace(c)
  {
    if c != s[0] {
      assert s[..WordLength(s)] == [s[0]] + s[1..][..WordLength(s[1..])];
      WordIsSolid(s[1..], c);
    }
  }

  ghost predicate Solid(word: string) { word != "" && forall i | 0 <= i < |word| :: !IsSpace(word[i]) }

  function Spaced(words: seq<string>): string {
    if words == [] then "" else if |words| == 1 then words[0] else words[0] + [' '] + Spaced(words[1..])
  }

  lemma {:induction false} WordThen(word: string, rest: string)
    requires (forall i | 0 <= i < |word| :: !IsSpace(word[i])) && (rest == "" || IsSpace(rest[0]))
    ensures WordLength(word + rest) == |word|
  {
    if word == "" {
      assert word + rest == rest;
    } else {
      WordThen(word[1..], rest);
      assert (word + rest)[1..] == word[1..] + rest;
    }
  }

  lemma SpaceIsSkipped(s: string)
    ensures Words([' '] + s) == Words(s) && IsSpace(' ')
  {
    assert ([' '] + s)[1..] == s;
  }

  lemma WordIsRead(word: string, rest: string)
    requires Solid(word) && (rest == "" || rest[0] == ' ')
    ensures Words(word + rest) == [word] + Words(rest)
  {
    WordThen(word, rest);
    assert (word + rest)[..|word|] == word && (word + rest)[|word|..] == rest;
  }

  /** Fields written with single spaces between them are read back. */
  lemma {:induction false} SpacedWords(words: seq<string>)
    requires forall i | 0 <= i < |words| :: Solid(words[i])
    ensures Words(Spaced(words)) == words
  {
    if words != [] {
      assert Solid(words[0]);
      hide Words, WordLength, IsSpace;
      var rest := if |words| == 1 then "" else [' '] + Spaced(words[1..]);
      assert Spaced(words) == words[0] + rest;
      WordIsRead(words[0], rest);
      SpacedWords(words[1..]);
      if |words| > 1 {
        SpaceIsSkipped(Spaced(words[1..]));
      }
      assert words == [words[0]] + words[1..];
    }
  }

  const U32_MAX := 0xFFFF_FFFF

  /** `str::parse::<u32>`: digits after an optional plus sign, in range. */
  function ParseU32(s: string): Option<nat> {
    var digits := if s != "" && s[0] == '+' then s[1..] else s;
    if digits == "" || !(forall c | c in digits :: IsDigit(c)) || Digits(digits) > U32_MAX then None
    else Some(Digits(digits))
  }

  // ---------------------------------------------------------------- one field

  predicate IsAny(field: string) { field == "*" || field == "?" }

  datatype Range = Range(lo: nat, hi: nat, step: nat) {
    /** One of `lo`, `lo + step`, ... up to `hi`. */
    predicate Contains(v: nat) { 0 < step && lo <= v <= hi && (v - lo) % step == 0 }
  }

  /** The range a part stands for, if it is well formed: `*`, `a`, `a-b`, each with an optional `/n`. */
  function RangeOf(part: string, min: nat, max: nat): (r: Option<Range>)
    ensures r.Some? ==> 0 < r.value.step
  {
    var cut := SplitOnce(part, '/');
    var base := if cut.Some? then cut.value.0 else part;
    var step := if cut.None? then 1 else var n := ParseU32(cut.value.1); if n.Some? then n.value else 0;
    if step == 0 then None
    else if IsAny(base) then Some(Range(min, max, step))
    else match SplitOnce(base, '-')
      case Some(ends) =>
        var a, b := ParseU32(ends.0), ParseU32(ends.1);
        if a.Some? && b.Some? && a.value <= b.value then Some(Range(a.value, b.value, step)) else None
      case None =>
        var v := ParseU32(base);
        if v.Some? then Some(Range(v.value, v.value, step)) else None
  }

  predicate Names(part: string, min: nat, max: nat, v: nat) {
    RangeOf(part, min, max).Some? && RangeOf(part, min, max).value.Contains(v)
  }

  predicate Named(parts: seq<string>, min: nat, max: nat, v: nat) {
    exists i :: 0 <= i < |parts| && Names(parts[i], min, max, v)
  }

  function Selected(parts: seq<string>, min: nat, max: nat): set<nat> {
    set v: nat | min <= v <= max && Named(parts, min, max, v)
  }

  /** What a field matches: the values in bounds that some part names. */
  function Values(field: string, min: nat, max: nat): set<nat> {
    Selected(Split(field, ','), min, max)
  }

  /** From a multiple of `step`, the next one is `step` away and nothing between is one. */
  lemma NextMultiple(a: nat, step: nat, b: nat)
    requires 0 < step && a % step == 0
    ensures (a + step) % step == 0
    ensures a < b < a + step ==> b % step != 0
  {
    var q := a / step;
    assert a + step == step * (q + 1);
    DivIs(a + step, step, q + 1, 0);
    if a < b < a + step {
      DivIs(b, step, q, b - a);
    }
  }

  /** The values of one range, found by stepping through it. */
  method StepThrough(range: Range, min: nat, max: nat) returns (out: set<nat>)
    requires 0 < range.step
    ensures out == set v: nat | min <= v <= max && range.Contains(v)
  {
    out := {};
    var v := range.lo;
    var last := if range.hi < max then range.hi else max;
    while v <= last
      invariant range.lo <= v && (v - range.lo) % range.step == 0
      invariant forall w: nat :: w in out <==> min <= w <= last && range.Contains(w) && w < v
      decreases last + range.step - v
    {
      if v >= min {
        out := out + {v};
      }
      forall w: nat | v < w < v + range.step ensures !range.Contains(w) {
        NextMultiple(v - range.lo, range.step, w - range.lo);
      }
      NextMultiple(v - range.lo, range.step, 0);
      v := v + range.step;
    }
  }

  lemma SelectedGrows(parts: seq<string>, n: nat, min: nat, max: nat)
    requires n < |parts|
    ensures var range := RangeOf(parts[n], min, max);
            var more := if range.None? then {} else set v: nat | min <= v <= max && range.value.Contains(v);
            Selected(parts[..n + 1], min, max) == Selected(parts[..n], min, max) + more
  {
    hide RangeOf;
    var head := parts[..n + 1];
    forall v: nat ensures Named(head, min, max, v) <==> Named(parts[..n], min, max, v) || Names(parts[n], min, max, v) {
      if Names(parts[n], min, max, v) {
        assert head[n] == parts[n];
      }
      if i :| 0 <= i < n && Names(parts[i], min, max, v) {
        assert head[i] == parts[..n][i];
      }
      if i :| 0 <= i < |head| && Names(head[i], min, max, v) {
        assert i < n ==> parts[..n][i] == head[i];
      }
    }
  }

  /** `parse_field`: the set its text stands for. */
  method ParseField(field: string, min: nat, max: nat) returns (out: set<nat>)
    ensures out == Values(field, min, max)
  {
    hide RangeOf;
    out := {};
    var parts := Split(field, ',');
    for n := 0 to |parts|
      invariant out == Selected(parts[..n], min, max)
    {
      var range := RangeOf(parts[n], min, max);
      SelectedGrows(parts, n, min, max);
      if range.Some? {
        var more := StepThrough(range.value, min, max);
        out := out + more;
      }
    }
    assert parts[..|parts|] == parts;
  }
}
