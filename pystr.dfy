/** The pieces of Python's `str` that the handler relies on: `isspace`,
    `strip`, `split(sep)` and, as the inverse of `split`, `sep.join`.
    Strings are sequences of Unicode code points (`char`). */
module PyStr {

  /** Python's `str.isspace` for one code point: the characters that
      `str.strip()` with no argument removes. */
  predicate IsSpace(c: char) {
    || ('\t' <= c <= '\r')            // \t \n \v \f \r
    || ('\U{1C}' <= c <= ' ')         // the four separators \x1c-\x1f and space
    || c == '\U{85}' || c == '\U{A0}' || c == '\U{1680}'
    || ('\U{2000}' <= c <= '\U{200A}')
    || c == '\U{2028}' || c == '\U{2029}' || c == '\U{202F}' || c == '\U{205F}'
    || c == '\U{3000}'
  }

  predicate AllSpace(s: string) {
    forall i | 0 <= i < |s| :: IsSpace(s[i])
  }

  /** Neither end of `s` is whitespace: `s` is its own `strip()`. */
  predicate NoEdgeSpace(s: string) {
    s == [] || (!IsSpace(s[0]) && !IsSpace(s[|s| - 1]))
  }

  /** `s.strip()`: drop whitespace from both ends. What is left has no
      whitespace at either end, and is empty exactly when `s` is all
      whitespace. */
  function Strip(s: string): (r: string)
    ensures NoEdgeSpace(r)
    ensures r == [] <==> AllSpace(s)
    ensures |r| <= |s|
  {
    if s == [] then []
    else if IsSpace(s[0]) then
      assert AllSpace(s) <==> AllSpace(s[1..]) by {
        assert forall i | 1 <= i < |s| :: s[i] == s[1..][i - 1];
      }
      Strip(s[1..])
    else if IsSpace(s[|s| - 1]) then
      assert AllSpace(s) <==> AllSpace(s[..|s| - 1]) by {
        assert forall i | 0 <= i < |s| - 1 :: s[i] == s[..|s| - 1][i];
      }
      Strip(s[..|s| - 1])
    else
      s
  }

  /** The number of leading whitespace characters of `s`. */
  function Lead(s: string): nat {
    if s != [] && IsSpace(s[0]) then 1 + Lead(s[1..]) else 0
  }

  /** The slice of `s` that `strip()` keeps, with only whitespace before and
      after it. */
  predicate IsStripSlice(s: string, lead: nat, r: string) {
    && lead + |r| <= |s|
    && r == s[lead..lead + |r|]
    && AllSpace(s[..lead]) && AllSpace(s[lead + |r|..])
  }

  /** What `strip()` keeps is one contiguous slice of `s`, starting after the
      leading whitespace, and what it drops on either side is whitespace. */
  lemma {:induction false} StripSlice(s: string)
    ensures IsStripSlice(s, Lead(s), Strip(s))
  {
    if s == [] {
    } else if IsSpace(s[0]) {
      StripSlice(s[1..]);
      StripSliceFront(s);
    } else if IsSpace(s[|s| - 1]) {
      StripSlice(s[..|s| - 1]);
      StripSliceBack(s);
    } else {
      assert s[0..|s|] == s;
    }
  }

  lemma {:induction false} StripSliceFront(s: string)
    requires s != [] && IsSpace(s[0])
    requires IsStripSlice(s[1..], Lead(s[1..]), Strip(s[1..]))
    ensures IsStripSlice(s, Lead(s), Strip(s))
  {
    var t := s[1..];
    var i, j := Lead(t), Lead(t) + |Strip(t)|;
    assert s[i + 1..j + 1] == t[i..j] && s[j + 1..] == t[j..];
    assert s[..i + 1] == [s[0]] + t[..i];
    AllSpaceCons(s[0], t[..i]);
  }

  lemma {:induction false} StripSliceBack(s: string)
    requires s != [] && !IsSpace(s[0]) && IsSpace(s[|s| - 1])
    requires IsStripSlice(s[..|s| - 1], Lead(s[..|s| - 1]), Strip(s[..|s| - 1]))
    ensures IsStripSlice(s, Lead(s), Strip(s))
  {
    var t := s[..|s| - 1];
    assert t != [] && t[0] == s[0];
    var j := |Strip(t)|;
    assert s[0..j] == t[0..j] && s[..0] == t[..0];
    assert s[j..] == t[j..] + [s[|s| - 1]];
    AllSpaceSnoc(t[j..], s[|s| - 1]);
  }

  lemma {:induction false} AllSpaceCons(c: char, s: string)
    ensures AllSpace([c] + s) <==> IsSpace(c) && AllSpace(s)
  {
    var cs := [c] + s;
    assert cs[0] == c;
    assert forall i | 0 <= i < |s| :: cs[i + 1] == s[i];
    if IsSpace(c) && AllSpace(s) {
      forall i | 0 <= i < |cs| ensures IsSpace(cs[i]) {
        if i > 0 { assert cs[i] == s[i - 1]; }
      }
    }
  }

  lemma {:induction false} AllSpaceSnoc(s: string, c: char)
    ensures AllSpace(s + [c]) <==> AllSpace(s) && IsSpace(c)
  {
    var sc := s + [c];
    assert sc[|s|] == c;
    assert forall i | 0 <= i < |s| :: sc[i] == s[i];
  }

  /** A character absent from `s` is absent from `s.strip()`. */
  lemma {:induction false} StripKeepsOut(s: string, c: char)
    requires c !in s
    ensures c !in Strip(s)
  {
    if s != [] && IsSpace(s[0]) {
      assert c !in s[1..];
      StripKeepsOut(s[1..], c);
    } else if s != [] && IsSpace(s[|s| - 1]) {
      assert c !in s[..|s| - 1];
      StripKeepsOut(s[..|s| - 1], c);
    }
  }

  /** Stripping is determined by its three parts: whitespace, a body with no
      whitespace at either end, whitespace. */
  lemma {:induction false} StripUnique(lead: string, body: string, trail: string)
    requires AllSpace(lead) && AllSpace(trail) && NoEdgeSpace(body)
    ensures Strip(lead + body + trail) == body
    decreases |lead| + |trail|
  {
    var s := lead + body + trail;
    if lead != [] {
      assert s[0] == lead[0] && s[1..] == lead[1..] + body + trail;
      StripUnique(lead[1..], body, trail);
    } else if body == [] {
      assert s == trail;
    } else if trail != [] {
      assert s == body + trail && s[0] == body[0] && s[|s| - 1] == trail[|trail| - 1];
      assert s[..|s| - 1] == lead + body + trail[..|trail| - 1];
      StripUnique(lead, body, trail[..|trail| - 1]);
    } else {
      assert s == body;
    }
  }

  /** `strip()` is idempotent. */
  lemma {:induction false} StripIdempotent(s: string)
    ensures Strip(Strip(s)) == Strip(s)
  {
    var t := Strip(s);
    assert [] + t + [] == t;
    StripUnique([], t, []);
  }

  /** Number of occurrences of `c` in `s` (`s.count(c)`). */
  function Count(s: string, c: char): nat {
    if s == [] then 0 else (if s[0] == c then 1 else 0) + Count(s[1..], c)
  }

  /** `count` is the multiplicity of the character in the string. */
  lemma {:induction false} CountIsMultiplicity(s: string, c: char)
    ensures Count(s, c) == multiset(s)[c]
  {
    if s != [] {
      assert s == [s[0]] + s[1..];
      CountIsMultiplicity(s[1..], c);
    }
  }

  /** `s.split(sep)` for a one-character separator: every occurrence cuts,
      so there is one more piece than there are separators, and an empty
      string gives one empty piece. */
  function Split(s: string, sep: char): (r: seq<string>)
    ensures |r| == Count(s, sep) + 1
    ensures forall k | 0 <= k < |r| :: sep !in r[k]
  {
    if s == [] then [[]]
    else
      var rest := Split(s[1..], sep);
      if s[0] == sep then [[]] + rest
      else [[s[0]] + rest[0]] + rest[1..]
  }

  /** `sep.join(parts)`. */
  function Join(parts: seq<string>, sep: char): string {
    if parts == [] then []
    else if |parts| == 1 then parts[0]
    else parts[0] + [sep] + Join(parts[1..], sep)
  }

  /** Joining the pieces of a split gives back the original string. */
  lemma {:induction false} JoinSplit(s: string, sep: char)
    ensures Join(Split(s, sep), sep) == s
  {
    if s != [] {
      JoinSplit(s[1..], sep);
      if s[0] == sep {
        JoinSplitSep(s, sep);
      } else {
        JoinSplitOther(s, sep);
      }
    }
  }

  lemma {:induction false} JoinSplitSep(s: string, sep: char)
    requires s != [] && s[0] == sep
    requires Join(Split(s[1..], sep), sep) == s[1..]
    ensures Join(Split(s, sep), sep) == s
  {
    var rest := Split(s[1..], sep);
    assert Split(s, sep) == [[]] + rest;
    JoinCons([], rest, sep);
    assert s == [] + [sep] + s[1..];
  }

  lemma {:induction false} JoinSplitOther(s: string, sep: char)
    requires s != [] && s[0] != sep
    requires Join(Split(s[1..], sep), sep) == s[1..]
    ensures Join(Split(s, sep), sep) == s
  {
    var rest := Split(s[1..], sep);
    var r := Split(s, sep);
    assert r == [[s[0]] + rest[0]] + rest[1..];
    JoinGlue(s[0], rest, sep);
    assert s == [s[0]] + s[1..];
  }

  /** Prepending a character to the first piece prepends it to the join. */
  lemma {:induction false} JoinGlue(c: char, parts: seq<string>, sep: char)
    requires parts != []
    ensures Join([[c] + parts[0]] + parts[1..], sep) == [c] + Join(parts, sep)
  {
    var glued := [[c] + parts[0]] + parts[1..];
    if |parts| > 1 {
      assert glued == [[c] + parts[0]] + parts[1..];
      JoinCons([c] + parts[0], parts[1..], sep);
      assert parts == [parts[0]] + parts[1..];
      JoinCons(parts[0], parts[1..], sep);
      assert [c] + parts[0] + [sep] + Join(parts[1..], sep)
          == [c] + (parts[0] + [sep] + Join(parts[1..], sep));
    } else {
      assert glued == [[c] + parts[0]];
    }
  }

  lemma {:induction false} JoinCons(first: string, rest: seq<string>, sep: char)
    requires rest != []
    ensures Join([first] + rest, sep) == first + [sep] + Join(rest, sep)
  {
    assert ([first] + rest)[1..] == rest;
  }

  /** Splitting a join of separator-free pieces gives back the pieces. */
  lemma {:induction false} SplitJoin(parts: seq<string>, sep: char)
    requires parts != []
    requires forall k | 0 <= k < |parts| :: sep !in parts[k]
    ensures Split(Join(parts, sep), sep) == parts
  {
    if |parts| == 1 {
      SplitPrefix(parts[0], [], sep);
      assert parts[0] + [] == parts[0];
    } else {
      var tail := Join(parts[1..], sep);
      SplitJoin(parts[1..], sep);
      assert Join(parts, sep) == parts[0] + ([sep] + tail);
      SplitPrefix(parts[0], [sep] + tail, sep);
      assert ([sep] + tail)[1..] == tail;
      assert Split([sep] + tail, sep) == [[]] + parts[1..];
      var x := Split([sep] + tail, sep);
      assert x[0] == [] && x[1..] == parts[1..];
      assert parts[0] + x[0] == parts[0];
      assert parts == [parts[0]] + parts[1..];
    }
  }

  /** A separator-free prefix glues onto the first piece of the rest. */
  lemma {:induction false} SplitPrefix(w: string, tail: string, sep: char)
    requires sep !in w
    ensures Split(w + tail, sep) == [w + Split(tail, sep)[0]] + Split(tail, sep)[1..]
  {
    var t := Split(tail, sep);
    if w == [] {
      assert w + tail == tail && w + t[0] == t[0];
      assert t == [t[0]] + t[1..];
    } else {
      var rest := Split(w[1..] + tail, sep);
      SplitPrefix(w[1..], tail, sep);
      assert w + tail == [w[0]] + (w[1..] + tail);
      SplitCons(w[0], w[1..] + tail, sep);
      assert [w[0]] + (w[1..] + t[0]) == w + t[0];
    }
  }

  /** Unfolding `split` once on a leading non-separator character. */
  lemma {:induction false} SplitCons(c: char, s: string, sep: char)
    requires c != sep
    ensures Split([c] + s, sep) == [[c] + Split(s, sep)[0]] + Split(s, sep)[1..]
  {
    assert ([c] + s)[1..] == s;
  }
}
