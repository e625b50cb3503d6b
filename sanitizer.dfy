/**
 * The output sanitizer (`sanitize` in Tasks/NetworkTroubleshootV1/index.js). It applies two
 * global regular-expression replacements in sequence:
 *   1. `/([A-Za-z0-9_\-]{20,})/g`          -> the marker, and then
 *   2. `/(Authorization:\s*)([^\r\n]+)/ig` -> the first group followed by the marker.
 * Each replacement is modelled as the scan JavaScript's global `replace` performs: try a
 * match at the current position (leftmost, greedy, with backtracking); on success emit the
 * replacement and continue after the match, otherwise keep one character and move on.
 */
module Sanitizer {
  import opened Wrappers
  import opened Text

  /** What every masked span is replaced with. */
  const Marker: string := "<<REDACTED>>"

  /** The shortest run of word characters the first pass masks (`{20,}`). */
  const Threshold: nat := 20

  /** The header name the second pass looks for, compared case-insensitively. */
  const Header: string := "Authorization:"

  predicate AllWord(t: string) {
    forall k | 0 <= k < |t| :: IsWordChar(t[k])
  }

  /** `s` holds no contiguous run of `Threshold` (20) or more characters of
      `[A-Za-z0-9_\-]`. */
  predicate NoLongRun(s: string) {
    forall i, j | 0 <= i <= j <= |s| && j - i >= Threshold :: !AllWord(s[i..j])
  }

  /** Length of the run of word characters that `s` starts with. */
  function LeadRun(s: string): (n: nat)
    ensures n <= |s|
    ensures forall k | 0 <= k < n :: IsWordChar(s[k])
    ensures n < |s| ==> !IsWordChar(s[n])
  {
    if s != [] && IsWordChar(s[0]) then 1 + LeadRun(s[1..]) else 0
  }

  // ---------------------------------------------------------------------------------
  // Pass 1: long token-like runs

  /** `s.replace(/([A-Za-z0-9_\-]{20,})/g, Marker)`. A match at the current position is a
      run of at least `Threshold` word characters and, the quantifier being greedy, takes
      the whole run. */
  function MaskTokens(s: string): string
    decreases |s|
  {
    if s == [] then []
    else if LeadRun(s) >= Threshold then Marker + MaskTokens(s[LeadRun(s)..])
    else [s[0]] + MaskTokens(s[1..])
  }

  // ---------------------------------------------------------------------------------
  // Pass 2: Authorization header values

  /** `s` starts with `Authorization:` in any mix of upper and lower case. (Under the `i`
      flag without `u`, JavaScript folds a non-ASCII character to an ASCII one never, so
      ASCII folding is exact here.) */
  predicate StartsWithHeader(s: string) {
    |s| >= |Header| && forall k | 0 <= k < |Header| :: AsciiLower(s[k]) == AsciiLower(Header[k])
  }

  predicate SpacesBetween(s: string, lo: nat, hi: nat)
    requires lo <= hi <= |s|
  {
    forall j | lo <= j < hi :: IsSpace(s[j])
  }

  /** The regular expression can match at the start of `s` with `\s*` stopping at `k`:
      the header, then white space up to `k`, then a character `[^\r\n]` at `k`. */
  predicate ValueCanStartAt(s: string, k: int) {
    && StartsWithHeader(s)
    && |Header| <= k < |s|
    && SpacesBetween(s, |Header|, k)
    && !IsBreak(s[k])
  }

  /** The end of the longest run of white space in `s` from `from` on. */
  function SpaceEnd(s: string, from: nat): (q: nat)
    requires from <= |s|
    ensures from <= q <= |s|
    ensures SpacesBetween(s, from, q)
    ensures q < |s| ==> !IsSpace(s[q])
    decreases |s| - from
  {
    if from < |s| && IsSpace(s[from]) then SpaceEnd(s, from + 1) else from
  }

  /** Backtracking of the greedy `\s*`: the last position in `lo..k` holding a character
      that `[^\r\n]` accepts. */
  function LastValueStart(s: string, lo: nat, k: int): (r: Option<nat>)
    requires k < |s|
    ensures r.Some? ==> lo <= r.value <= k && !IsBreak(s[r.value])
    ensures r.Some? ==> forall j | r.value < j <= k :: IsBreak(s[j])
    ensures r.None? ==> forall j | lo <= j <= k :: IsBreak(s[j])
    decreases k - lo
  {
    if k < lo then None
    else if !IsBreak(s[k]) then Some(k)
    else LastValueStart(s, lo, k - 1)
  }

  /** The first line break at or after `from`, or the end of `s`. */
  function LineEnd(s: string, from: nat): (e: nat)
    requires from <= |s|
    ensures from <= e <= |s|
    ensures forall j | from <= j < e :: !IsBreak(s[j])
    ensures e < |s| ==> IsBreak(s[e])
    decreases |s| - from
  {
    if from < |s| && !IsBreak(s[from]) then LineEnd(s, from + 1) else from
  }

  /** A match of the header expression at the start of a string: the first group is
      `s[..keep]`, the value group `s[keep..end]`. */
  datatype Span = Span(keep: nat, end: nat)

  /** The match of `/(Authorization:\s*)([^\r\n]+)/i` at the start of `s`, if any. There
      is one exactly when some stopping point of `\s*` admits a value; the greedy `\s*`
      takes the last such point, and the greedy value runs to the next CR, LF or the end. */
  function AuthMatch(s: string): (r: Option<Span>)
    ensures r.None? <==> !exists k :: ValueCanStartAt(s, k)
    ensures r.Some? ==> ValueCanStartAt(s, r.value.keep)
    ensures r.Some? ==> forall k | r.value.keep < k :: !ValueCanStartAt(s, k)
    ensures r.Some? ==> r.value.keep < r.value.end <= |s|
    ensures r.Some? ==> forall j | r.value.keep <= j < r.value.end :: !IsBreak(s[j])
    ensures r.Some? && r.value.end < |s| ==> IsBreak(s[r.value.end])
  {
    if !StartsWithHeader(s) then None
    else
      var q := SpaceEnd(s, |Header|);
      var k := LastValueStart(s, |Header|, if q < |s| then q else |s| - 1);
      if k.None? then None
      else
        assert ValueCanStartAt(s, k.value) by {
          assert SpacesBetween(s, |Header|, q);
        }
        Some(Span(k.value, LineEnd(s, k.value)))
  }

  /** `s.replace(/(Authorization:\s*)([^\r\n]+)/ig, '$1' + Marker)`. */
  function MaskAuth(s: string): string
    decreases |s|
  {
    if s == [] then []
    else
      match AuthMatch(s)
      case Some(m) => s[..m.keep] + Marker + MaskAuth(s[m.end..])
      case None => [s[0]] + MaskAuth(s[1..])
  }

  /** `sanitize(text)`: an empty text is returned as it is; otherwise the token pass runs
      first and the header pass on its result. */
  function Sanitize(s: string): string {
    if s == [] then s else MaskAuth(MaskTokens(s))
  }

  // ---------------------------------------------------------------------------------
  // Properties of pass 1

  /** A slice of a string without long runs has none either. */
  lemma SliceNoLongRun(s: string, lo: nat, hi: nat)
    requires lo <= hi <= |s| && NoLongRun(s)
    ensures NoLongRun(s[lo..hi])
  {
    var t := s[lo..hi];
    forall i, j | 0 <= i <= j <= |t| && j - i >= Threshold
      ensures !AllWord(t[i..j])
    {
      var a, b := t[i..j], s[lo + i..lo + j];
      forall k | 0 <= k < |a|
        ensures a[k] == b[k]
      {
        assert a[k] == t[i + k] == s[lo + i + k];
      }
      assert a == b;
    }
  }

  lemma DropNoLongRun(s: string, lo: nat)
    requires lo <= |s| && NoLongRun(s)
    ensures NoLongRun(s[lo..])
  {
    SliceNoLongRun(s, lo, |s|);
    assert s[lo..|s|] == s[lo..];
  }

  lemma TakeNoLongRun(s: string, hi: nat)
    requires hi <= |s| && NoLongRun(s)
    ensures NoLongRun(s[..hi])
  {
    SliceNoLongRun(s, 0, hi);
    assert s[0..hi] == s[..hi];
  }

  /** Gluing two strings without long runs creates none when the second one starts with
      a character outside the class (or is empty). */
  lemma JoinAtBreak(a: string, b: string)
    requires NoLongRun(a) && NoLongRun(b)
    requires b == [] || !IsWordChar(b[0])
    ensures NoLongRun(a + b)
  {
    var ab := a + b;
    forall i, j | 0 <= i <= j <= |ab| && j - i >= Threshold
      ensures !AllWord(ab[i..j])
    {
      if j <= |a| {
        assert ab[i..j] == a[i..j];
      } else if i >= |a| {
        assert ab[i..j] == b[i - |a|..j - |a|];
      } else {
        assert ab[i..j][|a| - i] == b[0];
      }
    }
  }

  /** Putting one character in front of a string without long runs creates none unless
      the character is a word character and the string starts with a run of 19. */
  lemma ConsRun(c: char, t: string)
    requires NoLongRun(t)
    requires !IsWordChar(c) || LeadRun(t) < Threshold - 1
    ensures NoLongRun([c] + t)
  {
    var ct := [c] + t;
    forall i, j | 0 <= i <= j <= |ct| && j - i >= Threshold
      ensures !AllWord(ct[i..j])
    {
      if i >= 1 {
        assert ct[i..j] == t[i - 1..j - 1];
      } else if !IsWordChar(c) {
        assert ct[i..j][0] == c;
      } else {
        var n := LeadRun(t);
        assert ct[i..j][n + 1] == t[n];
      }
    }
  }

  /** A string that starts with a run of 20 word characters has a long run. */
  lemma LongLead(s: string)
    requires LeadRun(s) >= Threshold
    ensures !NoLongRun(s)
  {
    assert AllWord(s[0..Threshold]);
  }

  /** The token pass leaves a leading run shorter than the threshold as it is, and a
      longer one becomes the marker, which starts with '<'. */
  lemma {:induction false} TokensLeadRun(s: string)
    ensures LeadRun(MaskTokens(s)) == if LeadRun(s) >= Threshold then 0 else LeadRun(s)
    decreases |s|
  {
    if s == [] {
    } else if LeadRun(s) >= Threshold {
      assert MaskTokens(s)[0] == '<';
    } else {
      TokensLeadRun(s[1..]);
      var t := MaskTokens(s[1..]);
      assert MaskTokens(s) == [s[0]] + t;
      assert ([s[0]] + t)[1..] == t;
    }
  }

  /** No long token survives the token pass. */
  lemma {:induction false} TokensNoLongRun(s: string)
    ensures NoLongRun(MaskTokens(s))
    decreases |s|
  {
    if s == [] {
    } else if LeadRun(s) >= Threshold {
      var rest := s[LeadRun(s)..];
      TokensNoLongRun(rest);
      TokensLeadRun(rest);
      JoinAtBreak(Marker, MaskTokens(rest));
    } else {
      TokensNoLongRun(s[1..]);
      TokensLeadRun(s[1..]);
      ConsRun(s[0], MaskTokens(s[1..]));
    }
  }

  /** A text without long runs passes the token pass unchanged. */
  lemma {:induction false} TokensKeepClean(s: string)
    requires NoLongRun(s)
    ensures MaskTokens(s) == s
    decreases |s|
  {
    if s != [] {
      if LeadRun(s) >= Threshold {
        LongLead(s);
      }
      DropNoLongRun(s, 1);
      TokensKeepClean(s[1..]);
      assert [s[0]] + s[1..] == s;
    }
  }

  /** Running the token pass twice masks nothing more. */
  lemma TokensIdempotent(s: string)
    ensures MaskTokens(MaskTokens(s)) == MaskTokens(s)
  {
    TokensNoLongRun(s);
    TokensKeepClean(MaskTokens(s));
  }

  // ---------------------------------------------------------------------------------
  // Properties of pass 2

  /** A header occurrence starts with the thirteen letters of its name, then ':'. */
  lemma HeaderLeadRun(s: string)
    requires StartsWithHeader(s)
    ensures LeadRun(s) == |Header| - 1
  {
    forall k | 0 <= k < |Header| - 1
      ensures IsWordChar(s[k])
    {
      HeaderLetter(k);
    }
    assert s[|Header| - 1] == ':';
  }

  /** The header name before its ':' is made of letters. */
  lemma HeaderLetter(k: nat)
    requires k < |Header| - 1
    ensures IsAsciiLetter(Header[k])
  {
    var c := Header[k];
    assert c in "Authorization";
  }

  /** Two strings that agree up to the character ending the first one's leading run have
      the same leading run. */
  lemma LeadRunAgree(x: string, y: string, n: nat)
    requires LeadRun(x) <= n < |x| && n < |y|
    requires forall k | 0 <= k <= n :: x[k] == y[k]
    ensures LeadRun(y) == LeadRun(x)
  {
    assert !IsWordChar(y[LeadRun(x)]);
  }

  /** The header pass does not change the run a text starts with: a header keeps its
      name and ':', and everything it masks lies after them. */
  lemma {:induction false} AuthLeadRun(s: string)
    ensures LeadRun(MaskAuth(s)) == LeadRun(s)
    decreases |s|
  {
    if s != [] {
      match AuthMatch(s)
      case Some(m) =>
        var r := MaskAuth(s);
        assert r == s[..m.keep] + Marker + MaskAuth(s[m.end..]);
        HeaderLeadRun(s);
        LeadRunAgree(s, r, |Header| - 1);
      case None =>
        AuthLeadRun(s[1..]);
        var t := MaskAuth(s[1..]);
        assert MaskAuth(s) == [s[0]] + t;
        assert ([s[0]] + t)[1..] == t;
    }
  }

  /** The header pass creates no long run. */
  lemma {:induction false} AuthNoLongRun(s: string)
    requires NoLongRun(s)
    ensures NoLongRun(MaskAuth(s))
    decreases |s|
  {
    if s != [] {
      match AuthMatch(s)
      case Some(m) =>
        var rest := s[m.end..];
        TakeNoLongRun(s, m.keep);
        DropNoLongRun(s, m.end);
        AuthNoLongRun(rest);
        AuthLeadRun(rest);
        JoinAtBreak(s[..m.keep], Marker);
        JoinAtBreak(s[..m.keep] + Marker, MaskAuth(rest));
      case None =>
        DropNoLongRun(s, 1);
        AuthNoLongRun(s[1..]);
        AuthLeadRun(s[1..]);
        if LeadRun(s) >= Threshold {
          LongLead(s);
        }
        ConsRun(s[0], MaskAuth(s[1..]));
    }
  }

  /** After `sanitize`, no contiguous run of 20 or more token characters remains. */
  lemma SanitizeNoLongRun(s: string)
    ensures NoLongRun(Sanitize(s))
  {
    if s != [] {
      TokensNoLongRun(s);
      AuthNoLongRun(MaskTokens(s));
    }
  }

  /** A header written in any case, white space `w` (possibly crossing line breaks), a
      value `v` that does not start with white space and holds no line break, then the
      rest of the text from a line break on: the header and `w` are kept as written and
      `v` becomes the marker. */
  lemma {:induction false} HeaderValueMasked(h: string, w: string, v: string, rest: string)
    requires StartsWithHeader(h) && |h| == |Header|
    requires forall j | 0 <= j < |w| :: IsSpace(w[j])
    requires v != [] && !IsSpace(v[0])
    requires forall j | 0 <= j < |v| :: !IsBreak(v[j])
    requires rest == [] || IsBreak(rest[0])
    ensures MaskAuth(h + w + v + rest) == h + w + Marker + MaskAuth(rest)
  {
    var s := h + w + v + rest;
    var keep, end := |h| + |w|, |h| + |w| + |v|;
    assert StartsWithHeader(s) by {
      assert forall k | 0 <= k < |Header| :: s[k] == h[k];
    }
    assert ValueCanStartAt(s, keep) by {
      assert forall j | |Header| <= j < keep :: s[j] == w[j - |h|];
      assert s[keep] == v[0];
    }
    var m := AuthMatch(s).value;
    assert !IsSpace(s[keep]);
    assert m.keep == keep;
    assert forall j | keep <= j < end :: s[j] == v[j - keep];
    assert end < |s| ==> s[end] == rest[0];
    assert m.end == end;
    assert s[..keep] == h + w;
    assert s[end..] == rest;
  }

  /** A character that does not start a long run is kept by the token pass. */
  lemma TokensCons(c: char, t: string)
    requires LeadRun([c] + t) < Threshold
    ensures MaskTokens([c] + t) == [c] + MaskTokens(t)
  {
    assert ([c] + t)[1..] == t;
  }

  lemma ConsAppend(c: char, t: string, b: string)
    ensures [c] + (t + b) == ([c] + t) + b
  {
  }

  lemma SpaceNotWord(c: char)
    requires IsSpace(c)
    ensures !IsWordChar(c)
  {
  }

  /** The token pass goes through white space unchanged, and does not look into what
      follows it. */
  lemma {:induction false} TokensKeepSpaces(w: string, b: string)
    requires forall j | 0 <= j < |w| :: IsSpace(w[j])
    ensures MaskTokens(w + b) == w + MaskTokens(b)
    decreases |w|
  {
    if w == [] {
      assert w + b == b;
    } else {
      var c, t := w[0], w[1..];
      assert w == [c] + t;
      ConsAppend(c, t, b);
      TokensKeepSpaces(t, b);
      SpaceNotWord(c);
      assert ([c] + (t + b))[0] == c;
      TokensCons(c, t + b);
      ConsAppend(c, t, MaskTokens(b));
    }
  }

  /** The token pass goes through a text shorter than the threshold that ends with a
      non-word character unchanged, and does not look into what follows it. */
  lemma {:induction false} TokensKeepShort(a: string, b: string)
    requires |a| < Threshold
    requires a != [] ==> !IsWordChar(a[|a| - 1])
    ensures MaskTokens(a + b) == a + MaskTokens(b)
    decreases |a|
  {
    if a == [] {
      assert a + b == b;
    } else {
      var c, t := a[0], a[1..];
      assert a == [c] + t;
      ConsAppend(c, t, b);
      assert t != [] ==> t[|t| - 1] == a[|a| - 1];
      TokensKeepShort(t, b);
      LeadRunAgree(a, a + b, |a| - 1);
      TokensCons(c, t + b);
      ConsAppend(c, t, MaskTokens(b));
    }
  }

  /** The token pass keeps a text free of line breaks. */
  lemma {:induction false} TokensNoBreak(v: string)
    requires forall j | 0 <= j < |v| :: !IsBreak(v[j])
    ensures forall j | 0 <= j < |MaskTokens(v)| :: !IsBreak(MaskTokens(v)[j])
    decreases |v|
  {
    if v != [] {
      if LeadRun(v) >= Threshold {
        var rest := v[LeadRun(v)..];
        TokensNoBreak(rest);
        MarkerIsValue();
        var r := MaskTokens(v);
        assert r == Marker + MaskTokens(rest);
        forall j | 0 <= j < |r|
          ensures !IsBreak(r[j])
        {
          if j >= |Marker| {
            assert r[j] == MaskTokens(rest)[j - |Marker|];
          }
        }
      } else {
        TokensNoBreak(v[1..]);
        var r := MaskTokens(v);
        assert r == [v[0]] + MaskTokens(v[1..]);
        forall j | 0 <= j < |r|
          ensures !IsBreak(r[j])
        {
          if j >= 1 {
            assert r[j] == MaskTokens(v[1..])[j - 1];
          }
        }
      }
    }
  }

  /** The token pass leaves a non-empty text non-empty, and one that does not start with
      white space still does not: it starts with its own first character or with the
      marker's '<'. */
  lemma TokensFirst(v: string)
    requires v != [] && !IsSpace(v[0])
    ensures MaskTokens(v) != [] && !IsSpace(MaskTokens(v)[0])
  {
    if LeadRun(v) >= Threshold {
      assert MaskTokens(v)[0] == '<';
    } else {
      assert MaskTokens(v)[0] == v[0];
    }
  }

  /** A header line in any case mix: the header `h`, white space `w` (possibly across line
      breaks), a value `v` that does not start with white space and holds no line break,
      then the rest of the text from a line break on. `sanitize` keeps the header as
      written and the white space, turns the whole value into the marker, long tokens in
      it included, and sanitizes the rest on its own. */
  lemma HeaderLineMasked(h: string, w: string, v: string, rest: string)
    requires StartsWithHeader(h) && |h| == |Header|
    requires forall j | 0 <= j < |w| :: IsSpace(w[j])
    requires v != [] && !IsSpace(v[0])
    requires forall j | 0 <= j < |v| :: !IsBreak(v[j])
    requires rest == [] || IsBreak(rest[0])
    ensures Sanitize(h + w + v + rest) == h + w + Marker + Sanitize(rest)
  {
    assert AsciiLower(h[|h| - 1]) == ':';
    var u, r := MaskTokens(v), MaskTokens(rest);
    calc {
      MaskTokens(h + w + v + rest);
      { Assoc(h + w, v, rest); }
      MaskTokens(h + w + (v + rest));
      { ShortThenSpacesKept(h, w, v + rest); }
      h + w + MaskTokens(v + rest);
      { TokensSplit(v, rest); }
      h + w + (u + r);
      { Assoc(h + w, u, r); }
      h + w + u + r;
    }
    TokensNoBreak(v);
    TokensFirst(v);
    TokensKeepBreak(rest);
    HeaderValueMasked(h, w, u, r);
    assert h + w + v + rest != [];
  }

  /** The token pass keeps a leading line break. */
  lemma TokensKeepBreak(rest: string)
    requires rest == [] || IsBreak(rest[0])
    ensures MaskTokens(rest) == [] || IsBreak(MaskTokens(rest)[0])
    ensures rest == [] ==> MaskTokens(rest) == []
  {
    if rest != [] {
      assert rest == [rest[0]] + rest[1..];
      TokensCons(rest[0], rest[1..]);
    }
  }

  /** The token pass does not look across a character that is not a word character: it
      works on the two sides separately. */
  lemma {:induction false} TokensSplit(a: string, b: string)
    requires b == [] || !IsWordChar(b[0])
    ensures MaskTokens(a + b) == MaskTokens(a) + MaskTokens(b)
    decreases |a|
  {
    if a == [] {
      assert a + b == b;
    } else {
      LeadRunSplit(a, b);
      var n := LeadRun(a);
      var k := if n >= Threshold then n else 1;
      var front := if n >= Threshold then Marker else [a[0]];
      DropConcat(a, b, k);
      TokensSplit(a[k..], b);
      assert (a + b)[0] == a[0];
      calc {
        MaskTokens(a + b);
        front + MaskTokens(a[k..] + b);
        front + (MaskTokens(a[k..]) + MaskTokens(b));
        { Assoc(front, MaskTokens(a[k..]), MaskTokens(b)); }
        front + MaskTokens(a[k..]) + MaskTokens(b);
        MaskTokens(a) + MaskTokens(b);
      }
    }
  }

  lemma DropConcat(a: string, b: string, k: nat)
    requires k <= |a|
    ensures (a + b)[k..] == a[k..] + b
  {
  }

  /** A run of word characters ends where a non-word character follows. */
  lemma LeadRunSplit(a: string, b: string)
    requires a != []
    requires b == [] || !IsWordChar(b[0])
    ensures LeadRun(a + b) == LeadRun(a)
  {
    if LeadRun(a) < |a| {
      LeadRunAgree(a, a + b, LeadRun(a));
    } else if b != [] {
      LeadRunIs(a + b, |a|);
    } else {
      assert a + b == a;
    }
  }

  lemma ShortThenSpacesKept(h: string, w: string, v: string)
    requires |h| < Threshold && (h != [] ==> !IsWordChar(h[|h| - 1]))
    requires forall j | 0 <= j < |w| :: IsSpace(w[j])
    ensures MaskTokens(h + w + v) == h + w + MaskTokens(v)
  {
    calc {
      MaskTokens(h + w + v);
      { Assoc(h, w, v); }
      MaskTokens(h + (w + v));
      { TokensKeepShort(h, w + v); }
      h + MaskTokens(w + v);
      { TokensKeepSpaces(w, v); }
      h + (w + MaskTokens(v));
      { Assoc(h, w, MaskTokens(v)); }
      h + w + MaskTokens(v);
    }
  }

  lemma Assoc(a: string, b: string, c: string)
    ensures a + b + c == a + (b + c)
  {
  }

  /** The marker holds no white space and no line break. */
  lemma MarkerIsValue()
    ensures forall j | 0 <= j < |Marker| :: !IsBreak(Marker[j])
    ensures !IsSpace(Marker[0])
  {
  }

  /** A text that has only line breaks from position `m` on (with `m` at most the header
      length) passes the header pass unchanged: a match needs a value character at
      least a header length after its start. */
  lemma {:induction false} BreaksOnlyKept(u: string, m: int)
    requires m <= |Header|
    requires forall j | 0 <= j < |u| && m <= j :: IsBreak(u[j])
    ensures MaskAuth(u) == u
    decreases |u|
  {
    if u != [] {
      assert AuthMatch(u).None?;
      BreaksOnlyKept(u[1..], m - 1);
      assert [u[0]] + u[1..] == u;
    }
  }

  /** When a header is present but no value can follow it, everything after the header
      is a line break. */
  lemma NoValueAfterHeader(s: string)
    requires StartsWithHeader(s) && AuthMatch(s).None?
    ensures forall j | |Header| <= j < |s| :: IsBreak(s[j])
  {
    assert LastValueStart(s, |Header|, |s| - 1).None?;
  }

  /** The header pass keeps each of the first `|Header|` characters of a text: whatever it
      masks lies after a whole header. */
  lemma {:induction false} AuthKeepsFront(u: string, k: nat)
    requires k < |u| && k < |Header|
    ensures k < |MaskAuth(u)| && MaskAuth(u)[k] == u[k]
    decreases |u|
  {
    var r := MaskAuth(u);
    match AuthMatch(u)
    case Some(m) =>
      assert r == u[..m.keep] + (Marker + MaskAuth(u[m.end..]));
    case None =>
      var t := MaskAuth(u[1..]);
      assert r == [u[0]] + t;
      if k > 0 {
        AuthKeepsFront(u[1..], k - 1);
      }
  }

  /** A text starting with a line break keeps it in front. */
  lemma AuthKeepsBreak(u: string)
    requires u != [] && IsBreak(u[0])
    ensures MaskAuth(u) != [] && MaskAuth(u)[0] == u[0]
  {
    assert !StartsWithHeader(u);
  }

  /** Running the header pass twice masks nothing more: every value the first run leaves
      behind a header is the marker itself. */
  lemma {:induction false} AuthIdempotent(s: string)
    ensures MaskAuth(MaskAuth(s)) == MaskAuth(s)
    decreases |s|
  {
    if s != [] {
      match AuthMatch(s)
      case Some(m) =>
        AuthIdempotent(s[m.end..]);
        MatchedTwice(s, m);
      case None =>
        AuthIdempotent(s[1..]);
        SkippedTwice(s);
    }
  }

  /** The step of `AuthIdempotent` at a match: the second run finds the same header,
      now followed by the marker, and masks the marker with itself. */
  lemma MatchedTwice(s: string, m: Span)
    requires AuthMatch(s) == Some(m)
    requires MaskAuth(MaskAuth(s[m.end..])) == MaskAuth(s[m.end..])
    ensures MaskAuth(MaskAuth(s)) == MaskAuth(s)
  {
    var t := MaskAuth(s[m.end..]);
    MatchGroups(s, m);
    if s[m.end..] != [] {
      AuthKeepsBreak(s[m.end..]);
    }
    MarkerIsValue();
    HeaderValueMasked(s[..|Header|], s[|Header|..m.keep], Marker, t);
    MaskAuthAtMatch(s, m);
    PrefixSplit(s, |Header|, m.keep);
  }

  /** The parts of a match: the header as written, white space up to the value, and,
      after the value, a line break or the end. */
  lemma MatchGroups(s: string, m: Span)
    requires AuthMatch(s) == Some(m)
    ensures |Header| <= m.keep < m.end <= |s|
    ensures StartsWithHeader(s[..|Header|]) && |s[..|Header|]| == |Header|
    ensures forall j | 0 <= j < |s[|Header|..m.keep]| :: IsSpace(s[|Header|..m.keep][j])
    ensures s[m.end..] == [] || IsBreak(s[m.end..][0])
  {
    assert ValueCanStartAt(s, m.keep);
    var h, w := s[..|Header|], s[|Header|..m.keep];
    forall k | 0 <= k < |Header|
      ensures h[k] == s[k]
    {
    }
    forall j | 0 <= j < |w|
      ensures w[j] == s[|Header| + j]
    {
    }
    if m.end < |s| {
      assert s[m.end..][0] == s[m.end];
    }
  }

  /** At a match the header pass keeps the first group, writes the marker, and goes on
      after the value. */
  lemma MaskAuthAtMatch(s: string, m: Span)
    requires AuthMatch(s) == Some(m)
    ensures MaskAuth(s) == s[..m.keep] + Marker + MaskAuth(s[m.end..])
  {
  }

  lemma PrefixSplit(s: string, a: nat, b: nat)
    requires a <= b <= |s|
    ensures s[..a] + s[a..b] == s[..b]
  {
  }

  /** The step of `AuthIdempotent` where no header matches: the first character is kept,
      and no header appears in the output where there was none. */
  lemma SkippedTwice(s: string)
    requires s != [] && AuthMatch(s).None?
    requires MaskAuth(MaskAuth(s[1..])) == MaskAuth(s[1..])
    ensures MaskAuth(MaskAuth(s)) == MaskAuth(s)
  {
    var t := MaskAuth(s[1..]);
    var out := [s[0]] + t;
    assert MaskAuth(s) == out;
    if StartsWithHeader(s) {
      HeaderNoValueKept(s);
    } else if |s| <= |Header| {
      ShortTextKept(s);
    } else {
      SkippedNoHeader(s);
      assert AuthMatch(out).None?;
      assert out[1..] == t;
    }
  }

  /** A text shorter than a header passes the header pass unchanged. */
  lemma ShortTextKept(s: string)
    requires |s| <= |Header|
    ensures MaskAuth(s) == s
  {
    BreaksOnlyKept(s, |Header|);
  }

  /** Where a header occurrence is followed by no value, the header pass keeps the text
      as it is. */
  lemma HeaderNoValueKept(s: string)
    requires StartsWithHeader(s) && AuthMatch(s).None?
    ensures MaskAuth(s) == s
  {
    NoValueAfterHeader(s);
    BreaksOnlyKept(s, |Header|);
  }

  /** Where the text does not start with a header, neither does its image under the
      header pass. */
  lemma SkippedNoHeader(s: string)
    requires s != [] && AuthMatch(s).None?
    requires !StartsWithHeader(s) && |s| > |Header|
    ensures !StartsWithHeader(MaskAuth(s))
  {
    var out := [s[0]] + MaskAuth(s[1..]);
    assert MaskAuth(s) == out;
    forall k | 1 <= k < |Header|
      ensures k < |out| && out[k] == s[k]
    {
      AuthKeepsFront(s[1..], k - 1);
    }
  }

  /** Sanitizing twice changes nothing more than sanitizing once. */
  lemma SanitizeIdempotent(s: string)
    ensures Sanitize(Sanitize(s)) == Sanitize(s)
  {
    if s != [] {
      var once := Sanitize(s);
      SanitizeNoLongRun(s);
      TokensKeepClean(once);
      AuthIdempotent(MaskTokens(s));
    }
  }

  /** A string whose leading run is known ends it where the first non-word character is. */
  lemma LeadRunIs(s: string, n: nat)
    requires n < |s| && !IsWordChar(s[n])
    requires forall k | 0 <= k < n :: IsWordChar(s[k])
    ensures LeadRun(s) == n
  {
  }

  /** Text in which no header starts anywhere passes the header pass unchanged. */
  lemma NoHeaderKept(u: string)
    requires forall i | 0 <= i < |u| :: !StartsWithHeader(u[i..])
    ensures MaskAuth(u) == u
  {
    assert u + [] == u;
    MaskAuthSkips(u, []);
  }

  /** The header pass copies a prefix in which no header starts, wherever that prefix
      ends, and scans what follows it on its own. */
  lemma {:induction false} MaskAuthSkips(a: string, b: string)
    requires forall i | 0 <= i < |a| :: !StartsWithHeader((a + b)[i..])
    ensures MaskAuth(a + b) == a + MaskAuth(b)
    decreases |a|
  {
    if a == [] {
      assert a + b == b;
    } else {
      var s := a + b;
      assert s[0..] == s;
      assert s[1..] == a[1..] + b;
      forall i | 0 <= i < |a| - 1
        ensures !StartsWithHeader((a[1..] + b)[i..])
      {
        assert (a[1..] + b)[i..] == s[i + 1..];
      }
      MaskAuthSkips(a[1..], b);
      calc {
        MaskAuth(s);
        [a[0]] + MaskAuth(a[1..] + b);
        [a[0]] + (a[1..] + MaskAuth(b));
        { Assoc([a[0]], a[1..], MaskAuth(b)); }
        [a[0]] + a[1..] + MaskAuth(b);
        { assert [a[0]] + a[1..] == a; }
        a + MaskAuth(b);
      }
    }
  }

  /** No character of the header name is a line break, in either case. */
  lemma HeaderNotLf(k: nat)
    requires k < |Header|
    ensures AsciiLower(Header[k]) != '\n'
  {
    var c := Header[k];
    assert c in "Authorization:";
  }

  /** A line feed ends every header that could start in the text before it. */
  lemma NoHeaderBeforeLf(a: string, t: string)
    requires forall i | 0 <= i < |a| :: !StartsWithHeader(a[i..])
    ensures forall i | 0 <= i < |a| + 1 :: !StartsWithHeader((a + "\n" + t)[i..])
  {
    var s := a + "\n" + t;
    forall i | 0 <= i < |a| + 1
      ensures !StartsWithHeader(s[i..])
    {
      if i + |Header| <= |a| {
        assert !StartsWithHeader(a[i..]);
        var k :| 0 <= k < |Header| && AsciiLower(a[i..][k]) != AsciiLower(Header[k]);
        assert s[i..][k] == a[i..][k];
      } else {
        var k := |a| - i;
        assert s[i..][k] == '\n';
        HeaderNotLf(k);
      }
    }
  }

  /** A header line after earlier lines: text `a` holding no long token and no header,
      a line feed, then a header line as in `HeaderLineMasked`. `sanitize` keeps `a`
      and the line feed, keeps the header as written with its white space, masks the
      value, and sanitizes the rest on its own. */
  lemma HeaderAfterLinesMasked(a: string, h: string, w: string, v: string, rest: string)
    requires NoLongRun(a)
    requires forall i | 0 <= i < |a| :: !StartsWithHeader(a[i..])
    requires StartsWithHeader(h) && |h| == |Header|
    requires forall j | 0 <= j < |w| :: IsSpace(w[j])
    requires v != [] && !IsSpace(v[0])
    requires forall j | 0 <= j < |v| :: !IsBreak(v[j])
    requires rest == [] || IsBreak(rest[0])
    ensures Sanitize(a + "\n" + (h + w + v + rest)) == a + "\n" + (h + w + Marker + Sanitize(rest))
  {
    var y := h + w + v + rest;
    HeaderLineMasked(h, w, v, rest);
    var t := MaskTokens(y);
    assert y != [];
    assert "\n" + y == ['\n'] + y;
    assert LeadRun(['\n'] + y) == 0;
    calc {
      MaskTokens(a + "\n" + y);
      { Assoc(a, "\n", y); }
      MaskTokens(a + ("\n" + y));
      { TokensSplit(a, "\n" + y); }
      MaskTokens(a) + MaskTokens("\n" + y);
      { TokensKeepClean(a); TokensCons('\n', y); }
      a + ("\n" + t);
      { Assoc(a, "\n", t); }
      a + "\n" + t;
    }
    NoHeaderBeforeLf(a, t);
    MaskAuthSkips(a + "\n", t);
  }

  /** The token pass runs first. When the header name ends a run of 20 or more token
      characters (`X-Custom-Authorization: ...`, say), the token pass masks that run; the
      header pass then finds no header, and a short value stays in the output. */
  lemma TokenPassRunsFirst(p: string, v: string)
    requires AllWord(p) && |p| + |Header| - 1 >= Threshold
    requires |v| < |Header|
    ensures Sanitize(p + Header + " " + v) == Marker + ": " + v
  {
    var s := p + Header + " " + v;
    var n := |p| + |Header| - 1;
    HeaderEndsRun(p, " " + v);
    assert s == p + Header + (" " + v);
    var tail := s[n..];
    assert tail == ": " + v;
    TokensKeepClean(tail);
    assert MaskTokens(s) == Marker + tail;
    MarkerLineKept(Marker + tail, v);
  }

  /** A run of word characters in front of a text lengthens its leading run by its own
      length. */
  lemma {:induction false} LeadRunAfterWord(p: string, t: string)
    requires AllWord(p)
    ensures LeadRun(p + t) == |p| + LeadRun(t)
    decreases |p|
  {
    if p != [] {
      assert (p + t)[0] == p[0] && IsWordChar(p[0]);
      assert (p + t)[1..] == p[1..] + t;
      assert AllWord(p[1..]) by {
        forall k | 0 <= k < |p| - 1
          ensures IsWordChar(p[1..][k])
        {
          assert p[1..][k] == p[k + 1];
        }
      }
      LeadRunAfterWord(p[1..], t);
    } else {
      assert p + t == t;
    }
  }

  /** A header name followed by anything is a header occurrence. */
  lemma HeaderThenText(r: string)
    ensures StartsWithHeader(Header + r)
  {
    forall k | 0 <= k < |Header|
      ensures AsciiLower((Header + r)[k]) == AsciiLower(Header[k])
    {
    }
  }

  /** A run of word characters followed by the header name ends at the header's ':'. */
  lemma HeaderEndsRun(p: string, r: string)
    requires AllWord(p)
    ensures LeadRun(p + Header + r) == |p| + |Header| - 1
  {
    HeaderThenText(r);
    HeaderLeadRun(Header + r);
    LeadRunAfterWord(p, Header + r);
    assert p + Header + r == p + (Header + r);
  }

  /** No header starts in the marker followed by `": "` and fewer than 14 characters. */
  lemma MarkerLineKept(u: string, v: string)
    requires u == Marker + ": " + v && |v| < |Header|
    ensures MaskAuth(u) == u
  {
    var front := "<<REDACTED>>: ";
    assert u[..|front|] == front;
    forall i | 0 <= i < |u|
      ensures !StartsWithHeader(u[i..])
    {
      if i < |front| && i != 5 {
        assert u[i] == front[i];
        assert AsciiLower(front[i]) != 'a';
      } else if i == 5 {
        assert u[i + 1] == front[i + 1] == 'C';
      } else {
        assert |u[i..]| < |Header|;
      }
    }
    NoHeaderKept(u);
  }

}
