/** Small facts about concatenated strings, kept apart from the decoder's
    definitions so that proving them stays cheap. */
module Seqs {
  /** The first character and the rest of a string with a known head. */
  lemma Split1(x: string, rest: string)
    requires x != []
    ensures (x + rest)[0] == x[0] && (x + rest)[1..] == x[1..] + rest
  {
  }

  /** `o` of length one in front of `rest`. */
  lemma Cons1(o: string, rest: string)
    requires |o| == 1
    ensures (o + rest)[0] == o[0] && (o + rest)[1..] == rest
  {
  }

  /** `o` of length one in front of `x + rest`. */
  lemma Headed(o: string, x: string, rest: string)
    requires |o| == 1
    ensures (o + x + rest)[0] == o[0] && (o + x + rest)[1..] == x + rest
  {
    assert (o + x + rest)[1..] == x + rest;
  }

  /** `o` of length one in front of `x + c + rest`. */
  lemma Framed(o: string, x: string, c: string, rest: string)
    requires |o| == 1
    ensures (o + x + c + rest)[0] == o[0] && (o + x + c + rest)[1..] == x + c + rest
  {
    assert (o + x + c + rest)[1..] == x + c + rest;
  }

  lemma Assoc(a: string, b: string, c: string)
    ensures a + b + c == a + (b + c)
  {
  }

  lemma Assoc4(a: string, b: string, c: string, d: string)
    ensures a + b + c + d == a + (b + c + d)
  {
  }

  lemma Assoc5(a: string, b: string, c: string, d: string, e: string)
    ensures a + b + c + d + e == a + (b + (c + d + e))
  {
  }

  /** A member's text `"k":v` followed by `after`. */
  lemma Member(q: string, k: string, colon: string, v: string, after: string)
    requires q == "\"" && colon == ":"
    ensures var s := q + k + q + colon + v + after;
            s[0] == '"' && s[1..] == k + q + (colon + (v + after))
  {
    var s := q + k + q + colon + v + after;
    assert s[1..] == k + q + (colon + (v + after));
  }

  lemma HeadTail<T>(xs: seq<T>)
    requires |xs| > 0
    ensures [xs[0]] + xs[1..] == xs
  {
  }

  lemma Single<T>(xs: seq<T>)
    requires |xs| == 1
    ensures [xs[0]] == xs
  {
  }

  /** `a`, a one-character closer and `rest`. */
  lemma Closed(a: string, close: string, rest: string)
    requires a != [] && |close| == 1
    ensures var u := close + rest;
            a + close + rest == a + u && (a + u)[0] == a[0]
            && u[0] == close[0] && u[1..] == rest
  {
    var u := close + rest;
    assert u[1..] == rest;
  }

  /** `a`, a one-character separator, `x`, a closer and `rest`. */
  lemma Listed(a: string, sep: string, x: string, close: string, rest: string)
    requires a != [] && x != [] && |sep| == 1
    ensures var tail := x + close + rest; var u := sep + tail;
            a + sep + x + close + rest == a + u && (a + u)[0] == a[0]
            && u[0] == sep[0] && u[1..] == tail && tail[0] == x[0]
  {
    var tail := x + close + rest;
    var u := sep + tail;
    assert u[1..] == tail;
  }

  /** Dropping the bracket in `a + (b + c + q) + z`. */
  lemma Regroup(a: string, b: string, c: string, q: string, z: string)
    ensures a + (b + c + q) + z == a + b + c + q + z
  {
  }
}
