/** Occurrence of one text inside another, and readers that recover the
    interpolated fields of a template from the text the template produced.
    The readers are the inverses the prompt templates are checked against. */
module Templates {
  import opened Wrappers
  import opened Decimal

  /** `t` occurs in `s` starting at index `i`. */
  ghost predicate Occurs(t: string, s: string, i: int)
  {
    0 <= i && i + |t| <= |s| && s[i..i + |t|] == t
  }

  /** Python's `t in s` for strings. */
  ghost predicate Contains(s: string, t: string)
  {
    exists i :: Occurs(t, s, i)
  }

  lemma OccursBetween(a: string, t: string, b: string)
    ensures Occurs(t, a + t + b, |a|)
  {
    assert (a + t + b)[|a|..|a| + |t|] == t;
  }

  /** An occurrence of an occurrence is an occurrence. */
  lemma OccursWithin(t: string, u: string, s: string, j: int, i: int)
    requires Occurs(t, u, j) && Occurs(u, s, i)
    ensures Occurs(t, s, i + j)
  {
    forall k | 0 <= k < |t|
      ensures s[i + j + k] == t[k]
    {
      assert t[k] == u[j..j + |t|][k] == u[j + k];
      assert u[j + k] == s[i..i + |u|][j + k];
    }
    assert s[i + j..i + j + |t|] == t;
  }

  /** `s` with `head` removed from its front and `tail` from its end, if it has them. */
  function StripAround(s: string, head: string, tail: string): Option<string>
  {
    if |head| + |tail| <= |s| && s[..|head|] == head && s[|s| - |tail|..] == tail
    then Some(s[|head|..|s| - |tail|])
    else None
  }

  lemma StripAroundRoundTrip(head: string, q: string, tail: string)
    ensures StripAround(head + q + tail, head, tail) == Some(q)
  {
    var s := head + q + tail;
    assert s[..|head|] == head;
    assert s[|s| - |tail|..] == tail;
    assert s[|head|..|s| - |tail|] == q;
  }

  /** Reads `head + str(k) + mid + q + tail` back into `(k, q)`. */
  function ReadCountThenQuery(s: string, head: string, mid: string, tail: string): Option<(int, string)>
  {
    match StripAround(s, head, [])
    case None => None
    case Some(afterHead) =>
      match ReadIntPrefix(afterHead)
      case None => None
      case Some((k, rest)) =>
        match StripAround(rest, mid, tail)
        case None => None
        case Some(q) => Some((k, q))
  }

  /** Reads `head + q + mid + str(k) + tail` back into `(q, k)`. */
  function ReadQueryThenCount(s: string, head: string, mid: string, tail: string): Option<(string, int)>
  {
    match StripAround(s, head, tail)
    case None => None
    case Some(inner) =>
      match ReadIntSuffix(inner)
      case None => None
      case Some((before, k)) =>
        match StripAround(before, [], mid)
        case None => None
        case Some(q) => Some((q, k))
  }

  /** Whatever the query text holds, a count followed by a non-digit is read back exactly. */
  lemma CountThenQueryRoundTrip(head: string, k: int, mid: string, q: string, tail: string)
    requires mid != [] && !IsDigit(mid[0])
    ensures ReadCountThenQuery(head + IntToString(k) + mid + q + tail, head, mid, tail) == Some((k, q))
  {
    var rest := mid + q + tail;
    var afterHead := IntToString(k) + rest;
    StripAroundRoundTrip(head, afterHead, []);
    assert head + afterHead + [] == head + IntToString(k) + mid + q + tail;
    ReadIntPrefixOfIntToString(k, rest);
    StripAroundRoundTrip(mid, q, tail);
  }

  /** `ReadQueryThenCount` succeeds once each of its three readers does. */
  lemma ReadQueryThenCountSteps(s: string, head: string, mid: string, tail: string,
                                inner: string, before: string, q: string, k: int)
    requires StripAround(s, head, tail) == Some(inner)
    requires ReadIntSuffix(inner) == Some((before, k))
    requires StripAround(before, [], mid) == Some(q)
    ensures ReadQueryThenCount(s, head, mid, tail) == Some((q, k))
  {
  }

  lemma ReadCountAfterMid(q: string, mid: string, k: int)
    requires mid != [] && !IsDigit(mid[|mid| - 1]) && mid[|mid| - 1] != '-'
    ensures ReadIntSuffix(q + mid + IntToString(k)) == Some((q + mid, k))
  {
    var before := q + mid;
    assert before[|before| - 1] == mid[|mid| - 1];
    ReadIntSuffixOfIntToString(before, k);
  }

  /** Whatever the query text holds, a count preceded by neither a digit nor
      a minus sign is read back exactly. */
  lemma QueryThenCountRoundTrip(head: string, q: string, mid: string, k: int, tail: string)
    requires mid != [] && !IsDigit(mid[|mid| - 1]) && mid[|mid| - 1] != '-'
    ensures ReadQueryThenCount(head + q + mid + IntToString(k) + tail, head, mid, tail) == Some((q, k))
  {
    var d := IntToString(k);
    var before := q + mid;
    var inner := before + d;
    StripAroundRoundTrip(head, inner, tail);
    assert head + inner + tail == head + q + mid + d + tail;
    ReadCountAfterMid(q, mid, k);
    StripAroundRoundTrip([], q, mid);
    assert [] + q + mid == before;
    ReadQueryThenCountSteps(head + q + mid + d + tail, head, mid, tail, inner, before, q, k);
  }

  lemma ContainsTransitive(s: string, u: string, t: string)
    requires Contains(s, u) && Contains(u, t)
    ensures Contains(s, t)
  {
    var i :| Occurs(u, s, i);
    var j :| Occurs(t, u, j);
    OccursWithin(t, u, s, j, i);
  }

  // Where the pieces of a concatenation occur in it.

  lemma PiecesOf3(a: string, b: string, c: string)
    ensures Contains(a + b + c, a) && Contains(a + b + c, b) && Contains(a + b + c, c)
  {
    OccursBetween([], a, b + c);
    assert [] + a + (b + c) == a + b + c;
    OccursBetween(a, b, c);
    OccursBetween(a + b, c, []);
    assert a + b + c + [] == a + b + c;
  }

  lemma PiecesOf4(a: string, b: string, c: string, d: string)
    ensures var s := a + b + c + d;
      Contains(s, b) && Contains(s, c) && Contains(s, d)
  {
    OccursBetween(a, b, c + d);
    assert a + b + (c + d) == a + b + c + d;
    OccursBetween(a + b, c, d);
    OccursBetween(a + b + c, d, []);
    assert a + b + c + d + [] == a + b + c + d;
  }

  /** The two fields of a template `a + x + b + y + c`. */
  lemma FieldsOf5(a: string, x: string, b: string, y: string, c: string)
    ensures Contains(a + x + b + y + c, x) && Contains(a + x + b + y + c, y)
  {
    OccursBetween(a, x, b + y + c);
    assert a + x + (b + y + c) == a + x + b + y + c;
    OccursBetween(a + x + b, y, c);
  }

  /** The two fields, the piece between them and the last piece of a template
      `a + x + b + y + c + z + d`. */
  lemma FieldsOf7(a: string, x: string, b: string, y: string, c: string, z: string, d: string)
    ensures var s := a + x + b + y + c + z + d;
      Contains(s, x) && Contains(s, y) && Contains(s, z) && Contains(s, d)
  {
    var s := a + x + b + y + c + z + d;
    OccursBetween(a, x, b + y + c + z + d);
    assert a + x + (b + y + c + z + d) == s;
    OccursBetween(a + x + b, y, c + z + d);
    assert a + x + b + y + (c + z + d) == s;
    OccursBetween(a + x + b + y + c, z, d);
    OccursBetween(a + x + b + y + c + z, d, []);
    assert s + [] == s;
  }

  /** A field between markers: `b + q + c` and `d` occur in `(a + b) + q + (c + d)`. */
  lemma MarkedField(a: string, b: string, q: string, c: string, d: string)
    ensures Contains((a + b) + q + (c + d), b + q + c) && Contains((a + b) + q + (c + d), d)
  {
    var s := (a + b) + q + (c + d);
    OccursBetween(a, b + q + c, d);
    assert a + (b + q + c) + d == s;
    OccursBetween(a + b + q + c, d, []);
    assert a + b + q + c + d + [] == s;
  }

  /** A count followed by the word after it, and the query, occur in
      `h + k + (w + r) + q + t`. */
  lemma CountWordAndQuery(h: string, k: string, w: string, r: string, q: string, t: string)
    ensures var s := h + k + (w + r) + q + t;
      Contains(s, k + w) && Contains(s, k) && Contains(s, q)
  {
    var s := h + k + (w + r) + q + t;
    OccursBetween(h, k + w, r + q + t);
    assert h + (k + w) + (r + q + t) == s;
    OccursBetween(h, k, (w + r) + q + t);
    assert h + k + ((w + r) + q + t) == s;
    OccursBetween(h + k + (w + r), q, t);
  }
}
