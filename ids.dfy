/** `slugify`: lower-case the text, replace every maximal run of characters
    outside [a-z0-9] by one '-', strip '-' from both ends, and fall back to
    "x" when nothing is left. Lower-casing is ASCII only. */
module Ids {

  predicate IsSlugChar(c: char) {
    'a' <= c <= 'z' || '0' <= c <= '9'
  }

  predicate IsSlugOrDash(c: char) {
    IsSlugChar(c) || c == '-'
  }

  function LowerChar(c: char): char {
    if 'A' <= c <= 'Z' then (c as int + 32) as char else c
  }

  function Lower(s: string): string {
    seq(|s|, i requires 0 <= i < |s| => LowerChar(s[i]))
  }

  /** Every '-' is followed by a letter or digit (or ends the string). */
  predicate DashesIsolated(s: string) {
    forall i :: 0 <= i < |s| - 1 && s[i] == '-' ==> IsSlugChar(s[i + 1])
  }

  predicate OnlySlugOrDash(s: string) {
    forall i :: 0 <= i < |s| ==> IsSlugOrDash(s[i])
  }

  /** The shape of every slug: non-empty, over [a-z0-9-], no '-' at either
      end and never two '-' in a row. */
  predicate IsSlug(s: string) {
    && s != []
    && OnlySlugOrDash(s)
    && s[0] != '-' && s[|s| - 1] != '-'
    && forall i :: 0 <= i < |s| - 1 ==> !(s[i] == '-' && s[i + 1] == '-')
  }

  /** The letters and digits of `s`, in order. */
  function Alnum(s: string): string {
    if s == [] then [] else (if IsSlugChar(s[0]) then [s[0]] else []) + Alnum(s[1..])
  }

  /** The length of the leading run of characters outside [a-z0-9]. */
  function RunLength(s: string): (n: nat)
    ensures n <= |s|
    ensures forall i :: 0 <= i < n ==> !IsSlugChar(s[i])
    ensures n < |s| ==> IsSlugChar(s[n])
  {
    if s != [] && !IsSlugChar(s[0]) then 1 + RunLength(s[1..]) else 0
  }

  /** Drops the leading run of characters outside [a-z0-9]. */
  function SkipRun(s: string): (r: string)
    ensures |r| <= |s|
    ensures r == [] || IsSlugChar(r[0])
  {
    s[RunLength(s)..]
  }

  /** Each maximal run of characters other than lower-case letters and digits
      becomes a single '-'. */
  function Collapse(s: string): (r: string)
    ensures OnlySlugOrDash(r) && DashesIsolated(r)
    ensures s != [] && IsSlugChar(s[0]) ==> r != [] && r[0] == s[0]
    ensures s == [] <==> r == []
    decreases |s|
  {
    if s == [] then []
    else if IsSlugChar(s[0]) then [s[0]] + Collapse(s[1..])
    else "-" + Collapse(SkipRun(s[1..]))
  }

  /** The number of leading '-'. */
  function LeadingDashes(s: string): (n: nat)
    ensures n <= |s|
    ensures forall i :: 0 <= i < n ==> s[i] == '-'
    ensures n < |s| ==> s[n] != '-'
  {
    if s != [] && s[0] == '-' then 1 + LeadingDashes(s[1..]) else 0
  }

  /** The number of trailing '-'. */
  function TrailingDashes(s: string): (n: nat)
    ensures n <= |s|
    ensures forall i :: |s| - n <= i < |s| ==> s[i] == '-'
    ensures n < |s| ==> s[|s| - n - 1] != '-'
  {
    if s != [] && s[|s| - 1] == '-' then 1 + TrailingDashes(s[..|s| - 1]) else 0
  }

  function TrimLeft(s: string): string {
    s[LeadingDashes(s)..]
  }

  function TrimRight(s: string): string {
    s[..|s| - TrailingDashes(s)]
  }

  /** `s` without its leading and trailing dashes. */
  function Strip(s: string): string {
    TrimRight(TrimLeft(s))
  }

  function Slugify(text: string): string {
    var t := Strip(Collapse(Lower(text)));
    if t == [] then "x" else t
  }

  // ---------------------------------------------------------------- lemmas

  lemma {:induction false} AlnumAppend(a: string, b: string)
    ensures Alnum(a + b) == Alnum(a) + Alnum(b)
    decreases |a|
  {
    if a == [] {
      assert a + b == b;
    } else {
      var h := if IsSlugChar(a[0]) then [a[0]] else [];
      assert (a + b)[0] == a[0] && (a + b)[1..] == a[1..] + b;
      AlnumAppend(a[1..], b);
      calc {
        Alnum(a + b);
        h + Alnum(a[1..] + b);
        h + (Alnum(a[1..]) + Alnum(b));
        (h + Alnum(a[1..])) + Alnum(b);
      }
    }
  }

  /** A string whose characters are all outside [a-z0-9] has no letters or digits. */
  lemma {:induction false} AlnumOfNoise(s: string)
    requires forall i :: 0 <= i < |s| ==> !IsSlugChar(s[i])
    ensures Alnum(s) == []
    decreases |s|
  {
    if s != [] {
      AlnumOfNoise(s[1..]);
    }
  }

  lemma AlnumSkipRun(s: string)
    ensures Alnum(SkipRun(s)) == Alnum(s)
  {
    var k := RunLength(s);
    assert s == s[..k] + s[k..];
    AlnumAppend(s[..k], s[k..]);
    AlnumOfNoise(s[..k]);
  }

  /** Collapsing runs keeps the letters and digits, in order. */
  lemma {:induction false} AlnumCollapse(s: string)
    ensures Alnum(Collapse(s)) == Alnum(s)
    decreases |s|
  {
    if s == [] {
    } else if IsSlugChar(s[0]) {
      AlnumCollapse(s[1..]);
      AlnumAppend([s[0]], Collapse(s[1..]));
    } else {
      var rest := SkipRun(s[1..]);
      AlnumCollapse(rest);
      AlnumSkipRun(s[1..]);
      AlnumAppend("-", Collapse(rest));
    }
  }

  lemma AlnumTrimLeft(s: string)
    ensures Alnum(TrimLeft(s)) == Alnum(s)
  {
    var k := LeadingDashes(s);
    assert s == s[..k] + s[k..];
    AlnumAppend(s[..k], s[k..]);
    AlnumOfNoise(s[..k]);
  }

  lemma AlnumTrimRight(s: string)
    ensures Alnum(TrimRight(s)) == Alnum(s)
  {
    var n := |s| - TrailingDashes(s);
    assert s == s[..n] + s[n..];
    AlnumAppend(s[..n], s[n..]);
    AlnumOfNoise(s[n..]);
  }

  lemma AlnumStrip(s: string)
    ensures Alnum(Strip(s)) == Alnum(s)
  {
    AlnumTrimLeft(s);
    AlnumTrimRight(TrimLeft(s));
  }

  /** A suffix of a collapsed string is still over [a-z0-9-] with every '-'
      followed by a letter or digit. */
  lemma {:induction false} SuffixShape(c: string, k: nat)
    requires OnlySlugOrDash(c) && DashesIsolated(c) && k <= |c|
    ensures OnlySlugOrDash(c[k..]) && DashesIsolated(c[k..])
  {
    assert forall i :: 0 <= i < |c| - k ==> c[k..][i] == c[k + i];
  }

  /** So is a prefix. */
  lemma {:induction false} PrefixShape(c: string, n: nat)
    requires OnlySlugOrDash(c) && DashesIsolated(c) && n <= |c|
    ensures OnlySlugOrDash(c[..n]) && DashesIsolated(c[..n])
  {
    assert forall i :: 0 <= i < n ==> c[..n][i] == c[i];
  }

  /** Stripping a collapsed string leaves nothing or a slug. */
  lemma {:induction false} StripShape(c: string)
    requires OnlySlugOrDash(c) && DashesIsolated(c)
    ensures Strip(c) != [] ==> IsSlug(Strip(c)) && IsSlugChar(Strip(c)[0])
  {
    var l := TrimLeft(c);
    SuffixShape(c, LeadingDashes(c));
    var t := TrimRight(l);
    PrefixShape(l, |l| - TrailingDashes(l));
    if t != [] {
      assert t[0] == l[0] == c[LeadingDashes(c)];
      assert t[|t| - 1] == l[|l| - TrailingDashes(l) - 1];
      forall i | 0 <= i < |t| - 1 ensures !(t[i] == '-' && t[i + 1] == '-') {
        if t[i] == '-' {
          assert IsSlugChar(t[i + 1]);
        }
      }
    }
  }

  /** Letters and digits of the lower-cased text survive, in their order;
      a text without any becomes "x". */
  lemma SlugifyKeepsAlnum(text: string)
    ensures Alnum(Lower(text)) != [] ==> Alnum(Slugify(text)) == Alnum(Lower(text))
    ensures Alnum(Lower(text)) == [] ==> Slugify(text) == "x"
  {
    var c := Collapse(Lower(text));
    AlnumCollapse(Lower(text));
    AlnumStrip(c);
    StripShape(c);
    var t := Strip(c);
    if t != [] {
      assert Alnum(t) == [t[0]] + Alnum(t[1..]);
    }
  }

  /** Every slug has the slug shape. */
  lemma SlugifyIsSlug(text: string)
    ensures IsSlug(Slugify(text))
  {
    StripShape(Collapse(Lower(text)));
  }

  lemma {:induction false} LowerOfSlug(s: string)
    requires OnlySlugOrDash(s)
    ensures Lower(s) == s
  {
    forall i | 0 <= i < |s| ensures Lower(s)[i] == s[i] {
      assert IsSlugOrDash(s[i]);
    }
  }

  lemma {:induction false} CollapseOfSlug(s: string)
    requires OnlySlugOrDash(s)
    requires forall i :: 0 <= i < |s| - 1 ==> !(s[i] == '-' && s[i + 1] == '-')
    ensures Collapse(s) == s
    decreases |s|
  {
    if s != [] {
      assert s == [s[0]] + s[1..];
      CollapseOfSlug(s[1..]);
      if !IsSlugChar(s[0]) {
        assert s[1..] == [] || IsSlugChar(s[1..][0]) by {
          if |s| > 1 {
            assert IsSlugOrDash(s[1]) && !(s[0] == '-' && s[1] == '-');
          }
        }
        assert SkipRun(s[1..]) == s[1..];
      }
    }
  }

  /** Slugifying a slug changes nothing. */
  lemma SlugifyIdempotent(text: string)
    ensures Slugify(Slugify(text)) == Slugify(text)
  {
    var s := Slugify(text);
    SlugifyIsSlug(text);
    LowerOfSlug(s);
    CollapseOfSlug(s);
    assert TrimLeft(s) == s;
    assert TrimRight(s) == s;
  }
}
