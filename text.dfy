/** The string operations the server relies on: `str.strip()`,
    `str.upper()`, `str.startswith`, `str.join` and, to read a joined text
    back, `str.split`. */
module Text {

  /** Python's `str.isspace()` for one character: the ASCII whitespace and
      separator controls and the Unicode space separators. */
  predicate IsSpace(c: char)
  {
    || c == ' '
    || ('\t' <= c <= '\r')
    || ('\U{1C}' <= c <= '\U{1F}')
    || c == '\U{85}' || c == '\U{A0}' || c == '\U{1680}'
    || ('\U{2000}' <= c <= '\U{200A}')
    || c == '\U{2028}' || c == '\U{2029}' || c == '\U{202F}' || c == '\U{205F}' || c == '\U{3000}'
  }

  predicate AllSpace(s: string)
  {
    forall k :: 0 <= k < |s| ==> IsSpace(s[k])
  }

  /** The number of whitespace characters `s` starts with. */
  function Lead(s: string): (k: nat)
    ensures k <= |s|
  {
    if |s| > 0 && IsSpace(s[0]) then 1 + Lead(s[1..]) else 0
  }

  /** The number of whitespace characters `s` ends with. */
  function Trail(s: string): (k: nat)
    ensures k <= |s|
  {
    if |s| > 0 && IsSpace(s[|s| - 1]) then 1 + Trail(s[..|s| - 1]) else 0
  }

  /** `s.strip()`: `s` without its leading and trailing whitespace. */
  function Strip(s: string): string
  {
    var t := s[Lead(s)..];
    t[..|t| - Trail(t)]
  }

  /** `c.upper()` for one character, over the ASCII letters. */
  function UpperChar(c: char): char
  {
    if 'a' <= c <= 'z' then (c as int - 32) as char else c
  }

  /** `s.upper()`: every character upper-cased, length and positions kept. */
  function Upper(s: string): (r: string)
    ensures |r| == |s| && forall k :: 0 <= k < |s| ==> r[k] == UpperChar(s[k])
  {
    if s == [] then [] else [UpperChar(s[0])] + Upper(s[1..])
  }

  /** `s.startswith(p)`. */
  predicate StartsWith(s: string, p: string)
  {
    |p| <= |s| && s[..|p|] == p
  }

  /** `sep.join(parts)`: the parts in order with `sep` between neighbours,
      and no separator before the first or after the last. */
  function Join(parts: seq<string>, sep: string): string
  {
    if |parts| == 0 then ""
    else if |parts| == 1 then parts[0]
    else parts[0] + sep + Join(parts[1..], sep)
  }

  /** `s.split(c)` for a one-character separator: the pieces between
      consecutive occurrences of `c` (the empty string splits into `[""]`). */
  function Split(s: string, c: char): (r: seq<string>)
    ensures |r| > 0
  {
    if |s| == 0 then [""]
    else if s[0] == c then [""] + Split(s[1..], c)
    else
      var rest := Split(s[1..], c);
      [[s[0]] + rest[0]] + rest[1..]
  }

  // ---------------------------------------------------------------------
  // strip()

  /** `Lead(s)` counts a run of whitespace that a non-space (or the end)
      closes. */
  lemma {:induction false} LeadSpec(s: string)
    ensures forall j :: 0 <= j < Lead(s) ==> IsSpace(s[j])
    ensures Lead(s) < |s| ==> !IsSpace(s[Lead(s)])
    decreases |s|
  {
    if |s| > 0 && IsSpace(s[0]) {
      LeadSpec(s[1..]);
      forall j | 0 < j < Lead(s) ensures IsSpace(s[j]) {
        assert s[j] == s[1..][j - 1];
      }
    }
  }

  /** `Trail(s)` counts a run of whitespace that a non-space (or the start)
      closes. */
  lemma {:induction false} TrailSpec(s: string)
    ensures forall j :: |s| - Trail(s) <= j < |s| ==> IsSpace(s[j])
    ensures Trail(s) < |s| ==> !IsSpace(s[|s| - 1 - Trail(s)])
    decreases |s|
  {
    if |s| > 0 && IsSpace(s[|s| - 1]) {
      TrailSpec(s[..|s| - 1]);
    }
  }

  /** `Lead` is the only count with its two properties. */
  lemma {:induction false} LeadUnique(s: string, k: nat)
    requires k <= |s| && (forall j :: 0 <= j < k ==> IsSpace(s[j])) && (k < |s| ==> !IsSpace(s[k]))
    ensures Lead(s) == k
    decreases |s|
  {
    if k > 0 {
      assert IsSpace(s[0]);
      LeadUnique(s[1..], k - 1);
    }
  }

  /** `Trail` is the only count with its two properties. */
  lemma {:induction false} TrailUnique(s: string, k: nat)
    requires k <= |s| && (forall j :: |s| - k <= j < |s| ==> IsSpace(s[j])) && (k < |s| ==> !IsSpace(s[|s| - 1 - k]))
    ensures Trail(s) == k
    decreases |s|
  {
    if k > 0 {
      assert IsSpace(s[|s| - 1]);
      TrailUnique(s[..|s| - 1], k - 1);
    }
  }

  /** What `strip()` returns: the slice of `s` outside which there is only
      whitespace and which neither starts nor ends with whitespace; it is
      empty exactly when `s` is all whitespace. */
  lemma {:induction false} StripSpec(s: string)
    ensures Lead(s) + |Strip(s)| <= |s| && Strip(s) == s[Lead(s)..Lead(s) + |Strip(s)|]
    ensures forall k :: 0 <= k < Lead(s) ==> IsSpace(s[k])
    ensures forall k :: Lead(s) + |Strip(s)| <= k < |s| ==> IsSpace(s[k])
    ensures Strip(s) != [] ==> !IsSpace(Strip(s)[0]) && !IsSpace(Strip(s)[|Strip(s)| - 1])
    ensures AllSpace(s) <==> Strip(s) == []
  {
    var l := Lead(s);
    var t := s[l..];
    var r := Strip(s);
    LeadSpec(s);
    TrailSpec(t);
    assert r == t[..|t| - Trail(t)];
    forall k | l + |r| <= k < |s| ensures IsSpace(s[k]) {
      assert s[k] == t[k - l];
    }
    if r != [] {
      assert r[0] == s[l];
    }
  }

  /** `strip()` returns a slice of its argument, starting after the leading
      whitespace. */
  lemma {:induction false} StripIsSlice(s: string)
    ensures Lead(s) + |Strip(s)| <= |s| && Strip(s) == s[Lead(s)..Lead(s) + |Strip(s)|]
  {
    StripSpec(s);
  }

  /** A slice is what `strip()` returns when only whitespace lies outside it
      and, unless it is empty, it neither starts nor ends with whitespace. */
  lemma {:induction false} StripUnique(s: string, i: nat, j: nat)
    requires i <= j <= |s|
    requires forall k :: 0 <= k < i ==> IsSpace(s[k])
    requires forall k :: j <= k < |s| ==> IsSpace(s[k])
    requires i < j ==> !IsSpace(s[i]) && !IsSpace(s[j - 1])
    ensures Strip(s) == s[i..j]
  {
    if i < j {
      LeadUnique(s, i);
      var t := s[i..];
      forall k | j - i <= k < |t| ensures IsSpace(t[k]) {
        assert t[k] == s[i + k];
      }
      assert t[j - i - 1] == s[j - 1];
      TrailUnique(t, |s| - j);
    } else {
      LeadUnique(s, |s|);
    }
  }

  /** Whitespace added in front of a text does not change what `strip()` returns. */
  lemma {:induction false} StripIgnoresLeft(w: string, s: string)
    requires AllSpace(w)
    ensures Strip(w + s) == Strip(s)
  {
    var x := w + s;
    var l, q := Lead(s), Strip(s);
    StripSpec(s);
    var i := |w| + l;
    forall k | 0 <= k < i ensures IsSpace(x[k]) {
      if k < |w| { assert x[k] == w[k]; } else { assert x[k] == s[k - |w|]; }
    }
    forall k | i + |q| <= k < |x| ensures IsSpace(x[k]) {
      assert x[k] == s[k - |w|];
    }
    forall k | 0 <= k < |q| ensures x[i..i + |q|][k] == q[k] {
      assert x[i + k] == s[l + k];
    }
    StripUnique(x, i, i + |q|);
  }

  /** Whitespace added after a text does not change what `strip()` returns. */
  lemma {:induction false} StripIgnoresRight(s: string, w: string)
    requires AllSpace(w)
    ensures Strip(s + w) == Strip(s)
  {
    var x := s + w;
    var l, q := Lead(s), Strip(s);
    StripSpec(s);
    forall k | 0 <= k < l ensures IsSpace(x[k]) {
      assert x[k] == s[k];
    }
    forall k | l + |q| <= k < |x| ensures IsSpace(x[k]) {
      if k < |s| { assert x[k] == s[k]; } else { assert x[k] == w[k - |s|]; }
    }
    forall k | 0 <= k < |q| ensures x[l..l + |q|][k] == q[k] {
      assert x[l + k] == s[l + k];
    }
    StripUnique(x, l, l + |q|);
  }

  /** Whitespace added around a text does not change what `strip()` returns. */
  lemma {:induction false} StripIgnoresPadding(w1: string, s: string, w2: string)
    requires AllSpace(w1) && AllSpace(w2)
    ensures Strip(w1 + s + w2) == Strip(s)
  {
    StripIgnoresRight(w1 + s, w2);
    StripIgnoresLeft(w1, s);
  }

  // ---------------------------------------------------------------------
  // upper()

  lemma {:induction false} UpperCharKeepsSpace(c: char)
    ensures IsSpace(UpperChar(c)) == IsSpace(c)
  {
  }

  /** Upper-casing and stripping commute: letter case never turns a
      character into whitespace or back. */
  lemma {:induction false} UpperStrip(s: string)
    ensures Upper(Strip(s)) == Strip(Upper(s))
  {
    UpperKeepsSpaces(s);
    StripIsSlice(s);
    SameSpacesSameStrip(s, Upper(s));
    UpperSlice(s, Lead(s), Lead(s) + |Strip(s)|);
  }

  /** Upper-casing keeps whitespace where it is, and nowhere else. */
  lemma {:induction false} UpperKeepsSpaces(s: string)
    ensures forall k :: 0 <= k < |s| ==> IsSpace(Upper(s)[k]) == IsSpace(s[k])
  {
    forall k | 0 <= k < |s| ensures IsSpace(Upper(s)[k]) == IsSpace(s[k]) {
      UpperCharKeepsSpace(s[k]);
    }
  }

  /** Two texts with whitespace at the same positions strip to the same slice. */
  lemma {:induction false} SameSpacesSameStrip(s: string, u: string)
    requires |s| == |u| && forall k :: 0 <= k < |s| ==> IsSpace(u[k]) == IsSpace(s[k])
    ensures Strip(u) == u[Lead(s)..Lead(s) + |Strip(s)|]
  {
    StripSpec(s);
    StripUnique(u, Lead(s), Lead(s) + |Strip(s)|);
  }

  /** Upper-casing a slice is slicing the upper-cased text. */
  lemma {:induction false} UpperSlice(s: string, i: nat, j: nat)
    requires i <= j <= |s|
    ensures Upper(s[i..j]) == Upper(s)[i..j]
  {
    forall k | 0 <= k < j - i ensures Upper(s[i..j])[k] == Upper(s)[i..j][k] {
      assert s[i..j][k] == s[i + k];
    }
  }

  // ---------------------------------------------------------------------
  // join() and split()

  lemma {:induction false} SplitPlain(p: string, c: char)
    requires c !in p
    ensures Split(p, c) == [p]
    decreases |p|
  {
    if |p| > 0 {
      SplitPlain(p[1..], c);
      assert [p[0]] + p[1..] == p;
    }
  }

  lemma {:induction false} SplitAt(p: string, c: char, t: string)
    requires c !in p
    ensures Split(p + [c] + t, c) == [p] + Split(t, c)
    decreases |p|
  {
    var s := p + [c] + t;
    if |p| == 0 {
      assert s[1..] == t;
    } else {
      assert s[1..] == p[1..] + [c] + t;
      SplitAt(p[1..], c, t);
      assert [p[0]] + p[1..] == p;
    }
  }

  /** Splitting a join on its one-character separator gives the parts back,
      provided no part contains the separator. */
  lemma {:induction false} SplitJoin(parts: seq<string>, c: char)
    requires |parts| > 0
    requires forall k :: 0 <= k < |parts| ==> c !in parts[k]
    ensures Split(Join(parts, [c]), c) == parts
    decreases |parts|
  {
    if |parts| == 1 {
      SplitPlain(parts[0], c);
    } else {
      SplitJoin(parts[1..], c);
      SplitAt(parts[0], c, Join(parts[1..], [c]));
      assert [parts[0]] + parts[1..] == parts;
    }
  }
}
