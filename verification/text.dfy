/** The string operations the executor relies on: `strings.HasPrefix`,
    `strings.Contains`, and the `%v` rendering of a `[]string`. Go strings
    are modelled as sequences of characters. */
module Text {

  /** `strings.HasPrefix(s, prefix)`: a raw character-prefix test. */
  predicate HasPrefix(s: string, prefix: string) {
    |prefix| <= |s| && s[..|prefix|] == prefix
  }

  /** HasPrefix agrees with its reference definition: `s` is `prefix`
      followed by something. */
  lemma PrefixIffConcat(s: string, prefix: string)
    ensures HasPrefix(s, prefix) <==> exists rest :: s == prefix + rest
  {
    if HasPrefix(s, prefix) {
      assert s == prefix + s[|prefix|..];
    }
    if exists rest :: s == prefix + rest {
      var rest :| s == prefix + rest;
      assert s[..|prefix|] == prefix;
    }
  }

  /** `sub` occurs in `s` starting at index `i`. */
  ghost predicate OccursAt(s: string, sub: string, i: int) {
    0 <= i && i + |sub| <= |s| && s[i..i + |sub|] == sub
  }

  /** `strings.Contains(s, sub)`, by scanning the start positions of `s`
      left to right. The empty string is contained in every string. */
  predicate Contains(s: string, sub: string)
    decreases |s|
  {
    HasPrefix(s, sub) || (|s| > 0 && Contains(s[1..], sub))
  }

  /** The scan finds `sub` exactly when it occurs at some index of `s`. */
  lemma {:induction false} ContainsIffOccurs(s: string, sub: string)
    ensures Contains(s, sub) <==> exists i :: OccursAt(s, sub, i)
    decreases |s|
  {
    if Contains(s, sub) {
      if HasPrefix(s, sub) {
        assert OccursAt(s, sub, 0);
      } else {
        ContainsIffOccurs(s[1..], sub);
        var j :| OccursAt(s[1..], sub, j);
        assert s[1..][j..j + |sub|] == s[j + 1..j + 1 + |sub|];
        assert OccursAt(s, sub, j + 1);
      }
    }
    if exists i :: OccursAt(s, sub, i) {
      var i :| OccursAt(s, sub, i);
      if i == 0 {
        assert HasPrefix(s, sub);
      } else {
        assert s[1..][i - 1..i - 1 + |sub|] == s[i..i + |sub|];
        assert OccursAt(s[1..], sub, i - 1);
        ContainsIffOccurs(s[1..], sub);
      }
    }
  }

  /** An occurrence at a known index is found by Contains. */
  lemma ContainsAt(s: string, sub: string, i: int)
    requires OccursAt(s, sub, i)
    ensures Contains(s, sub)
  {
    ContainsIffOccurs(s, sub);
  }

  /** An occurrence inside `mid` is still an occurrence once text is
      placed before and after it. */
  lemma OccursInContext(pre: string, mid: string, post: string, sub: string, i: int)
    requires OccursAt(mid, sub, i)
    ensures OccursAt(pre + mid + post, sub, |pre| + i)
  {
    assert (pre + mid + post)[|pre| + i..|pre| + i + |sub|] == mid[i..i + |sub|];
  }

  /** `strings.Join(xs, sep)`: the elements of `xs` with `sep` between
      neighbours; the empty list joins to the empty string. */
  function Join(xs: seq<string>, sep: string): string
  {
    if |xs| == 0 then ""
    else if |xs| == 1 then xs[0]
    else xs[0] + sep + Join(xs[1..], sep)
  }

  /** Join is characterised by its cases: nothing joins to the empty
      string, one element joins to itself, and appending an element appends
      the separator and that element. */
  lemma {:induction false} JoinAppend(xs: seq<string>, x: string, sep: string)
    ensures Join([], sep) == ""
    ensures Join([x], sep) == x
    ensures |xs| > 0 ==> Join(xs + [x], sep) == Join(xs, sep) + sep + x
    decreases |xs|
  {
    if |xs| == 1 {
      assert xs + [x] == [xs[0], x];
      assert [xs[0], x][1..] == [x];
    } else if |xs| > 1 {
      assert (xs + [x])[1..] == xs[1..] + [x];
      JoinAppend(xs[1..], x, sep);
    }
  }

  /** Every element of a joined list occurs in the result, at the offset
      this lemma returns. */
  lemma {:induction false} JoinOffset(xs: seq<string>, sep: string, k: int) returns (at: nat)
    requires 0 <= k < |xs|
    ensures OccursAt(Join(xs, sep), xs[k], at)
    decreases |xs|
  {
    if |xs| == 1 {
      at := 0;
      assert Join(xs, sep)[0..|xs[0]|] == xs[0];
    } else if k == 0 {
      at := 0;
      var j := Join(xs, sep);
      assert j == xs[0] + (sep + Join(xs[1..], sep));
      assert j[0..|xs[0]|] == xs[0];
    } else {
      var inner := JoinOffset(xs[1..], sep, k - 1);
      OccursInContext(xs[0] + sep, Join(xs[1..], sep), "", xs[k], inner);
      assert xs[0] + sep + Join(xs[1..], sep) + "" == Join(xs, sep);
      at := |xs[0] + sep| + inner;
    }
  }

  /** Go's `%v` rendering of a `[]string`: the elements separated by single
      spaces, in square brackets. A nil or empty slice renders as `[]`. */
  function FormatSlice(xs: seq<string>): string
  {
    "[" + Join(xs, " ") + "]"
  }

  /** Every element of a slice occurs in its `%v` rendering. */
  lemma FormatSliceMentions(xs: seq<string>, k: int)
    requires 0 <= k < |xs|
    ensures Contains(FormatSlice(xs), xs[k])
  {
    var at := JoinOffset(xs, " ", k);
    OccursInContext("[", Join(xs, " "), "]", xs[k], at);
    ContainsAt(FormatSlice(xs), xs[k], 1 + at);
  }
}
