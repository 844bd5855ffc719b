/** Strings with one whitespace predicate: stripping, the characters that are not whitespace, and subsequences. */
module Text {
  import opened Wrappers

  predicate IsSpace(c: char) {
    c == ' ' || '\t' <= c <= '\r' || '\U{1C}' <= c <= '\U{1F}'
  }

  predicate Blank(s: string) {
    forall i :: 0 <= i < |s| ==> IsSpace(s[i])
  }

  /** The first position from `i` on that is not whitespace. */
  function SkipSpaces(s: string, i: nat): (r: nat)
    requires i <= |s|
    ensures i <= r <= |s| && (forall k :: i <= k < r ==> IsSpace(s[k])) && (r < |s| ==> !IsSpace(s[r]))
    decreases |s| - i
  {
    if i < |s| && IsSpace(s[i]) then SkipSpaces(s, i + 1) else i
  }

  /** The position after the last character before `j` that is not whitespace. */
  function SkipBack(s: string, j: nat): (r: nat)
    requires j <= |s|
    ensures r <= j && (forall k :: r <= k < j ==> IsSpace(s[k])) && (r > 0 ==> !IsSpace(s[r - 1]))
  {
    if j > 0 && IsSpace(s[j - 1]) then SkipBack(s, j - 1) else j
  }

  /** Python's `str.lstrip`. */
  function LStrip(s: string): string {
    s[SkipSpaces(s, 0)..]
  }

  /** Python's `str.rstrip`. */
  function RStrip(s: string): string {
    s[..SkipBack(s, |s|)]
  }

  /** Python's `str.strip`. */
  function Strip(s: string): string {
    RStrip(LStrip(s))
  }

  /** The characters that are not whitespace, in order. */
  function Solid(s: string): string {
    if s == "" then "" else (if IsSpace(s[0]) then "" else [s[0]]) + Solid(s[1..])
  }

  lemma SolidFirst(s: string)
    requires s != ""
    ensures Solid(s) == (if IsSpace(s[0]) then "" else [s[0]]) + Solid(s[1..])
  {
  }

  lemma {:induction false} SolidConcat(a: string, b: string)
    ensures Solid(a + b) == Solid(a) + Solid(b)
  {
    if a == "" {
      assert a + b == b && "" + Solid(b) == Solid(b);
    } else {
      hide Solid, IsSpace;
      SolidConcat(a[1..], b);
      SolidFirst(a);
      SolidFirst(a + b);
      assert (a + b)[1..] == a[1..] + b;
      Regroup(if IsSpace(a[0]) then "" else [a[0]], Solid(a[1..]), Solid(b));
    }
  }

  lemma {:induction false} SolidBlank(s: string)
    ensures Solid(s) == "" <==> Blank(s)
  {
    if s != "" {
      SolidBlank(s[1..]);
      assert forall i :: 1 <= i < |s| ==> s[i] == s[1..][i - 1];
    }
  }

  lemma SolidStrip(s: string)
    ensures Solid(LStrip(s)) == Solid(s) && Solid(RStrip(s)) == Solid(s) && Solid(Strip(s)) == Solid(s)
  {
    SolidLStrip(s);
    SolidRStrip(s);
    SolidRStrip(LStrip(s));
  }

  lemma SolidLStrip(s: string)
    ensures Solid(LStrip(s)) == Solid(s)
  {
    hide Solid;
    var i := SkipSpaces(s, 0);
    assert s == s[..i] + s[i..];
    SolidConcat(s[..i], s[i..]);
    SolidBlank(s[..i]);
  }

  lemma SolidRStrip(s: string)
    ensures Solid(RStrip(s)) == Solid(s)
  {
    hide Solid;
    var j := SkipBack(s, |s|);
    assert s == s[..j] + s[j..];
    SolidConcat(s[..j], s[j..]);
    SolidBlank(s[j..]);
  }

  /** All the parts one after another. */
  function Concat(parts: seq<string>): string {
    if parts == [] then "" else parts[0] + Concat(parts[1..])
  }

  lemma ConcatFirst(parts: seq<string>)
    requires parts != []
    ensures Concat(parts) == parts[0] + Concat(parts[1..])
  {
  }

  lemma ConcatNothing(b: seq<string>)
    ensures Concat([] + b) == Concat([]) + Concat(b)
  {
    assert [] + b == b;
  }

  lemma {:induction false} ConcatAppend(a: seq<string>, b: seq<string>)
    ensures Concat(a + b) == Concat(a) + Concat(b)
  {
    hide Concat;
    if a == [] {
      ConcatNothing(b);
    } else {
      ConcatAppend(a[1..], b);
      ConcatFirst(a);
      ConcatFirst(a + b);
      assert (a + b)[1..] == a[1..] + b;
      Regroup(a[0], Concat(a[1..]), Concat(b));
    }
  }

  /** Python's `separator.join(parts)`. */
  function Join(separator: string, parts: seq<string>): string {
    if |parts| == 0 then "" else if |parts| == 1 then parts[0] else parts[0] + separator + Join(separator, parts[1..])
  }

  lemma {:induction false} JoinIsSolid(separator: string, parts: seq<string>)
    requires Blank(separator)
    ensures Solid(Join(separator, parts)) == Solid(Concat(parts))
  {
    if |parts| > 1 {
      JoinIsSolid(separator, parts[1..]);
      SolidConcat(parts[0] + separator, Join(separator, parts[1..]));
      SolidConcat(parts[0], separator);
      SolidBlank(separator);
      SolidConcat(parts[0], Concat(parts[1..]));
    } else if |parts| == 1 {
      assert Concat(parts) == parts[0];
    }
  }

  // ----- Infixes -----

  ghost predicate InfixAt(w: string, s: string, i: int) {
    0 <= i <= |s| - |w| && s[i..i + |w|] == w
  }

  ghost predicate Infix(w: string, s: string) {
    exists i :: InfixAt(w, s, i)
  }

  /** Not empty, and no whitespace at either end. */
  predicate Trimmed(w: string) {
    w != "" && !IsSpace(w[0]) && !IsSpace(w[|w| - 1])
  }

  /** Stripping takes whitespace off both ends and nothing else. */
  lemma StripSplits(s: string) returns (lead: nat)
    ensures lead + |Strip(s)| <= |s| && Strip(s) == s[lead..lead + |Strip(s)|]
    ensures forall k :: 0 <= k < lead || lead + |Strip(s)| <= k < |s| ==> IsSpace(s[k])
    ensures Strip(s) != "" ==> Trimmed(Strip(s))
  {
    hide SkipSpaces, SkipBack;
    lead := SkipSpaces(s, 0);
    var l := s[lead..];
    var n := SkipBack(l, |l|);
    assert forall k :: 0 <= k < |l| ==> l[k] == s[lead + k];
    assert Strip(s) == l[..n] == s[lead..lead + n];
    forall k | lead + n <= k < |s| ensures IsSpace(s[k]) {
      assert IsSpace(l[k - lead]);
    }
  }

  lemma StripIsTrimmed(s: string)
    ensures Strip(s) == "" <==> Blank(s)
    ensures Strip(s) != "" ==> Trimmed(Strip(s))
    ensures Infix(Strip(s), s)
  {
    var lead := StripSplits(s);
    hide Strip;
    assert InfixAt(Strip(s), s, lead);
    if Strip(s) != "" {
      assert !IsSpace(s[lead]);
    }
  }

  lemma InfixOfWindow(w: string, s: string, i: nat, lead: nat, n: nat)
    requires Trimmed(w) && InfixAt(w, s, i) && lead + n <= |s|
    requires forall k :: 0 <= k < lead || lead + n <= k < |s| ==> IsSpace(s[k])
    ensures Infix(w, s[lead..lead + n])
  {
    assert w[0] == s[i] && w[|w| - 1] == s[i + |w| - 1];
    assert lead <= i && i + |w| <= lead + n;
    var window, at := s[lead..lead + n], i - lead;
    assert forall k :: 0 <= k < |w| ==> window[at + k] == s[i + k] == w[k];
    assert window[at..at + |w|] == w;
    assert InfixAt(w, window, at);
  }

  /** Trimming the ends of a text leaves what is whole inside it whole. */
  lemma InfixOfStrip(w: string, s: string)
    requires Trimmed(w) && Infix(w, s)
    ensures Infix(w, Strip(s))
  {
    hide Strip;
    var i :| InfixAt(w, s, i);
    var lead := StripSplits(s);
    InfixOfWindow(w, s, i, lead, |Strip(s)|);
  }

  lemma InfixOfParts(w: string, before: string, s: string, after: string)
    requires Infix(w, s)
    ensures Infix(w, before + s + after)
  {
    var i :| InfixAt(w, s, i);
    assert (before + s + after)[|before| + i..|before| + i + |w|] == s[i..i + |w|];
    assert InfixAt(w, before + s + after, |before| + i);
  }

  // ----- Subsequences -----

  /** `f` says where each character of `a` is found in `b`, from left to right. */
  ghost predicate Embeds(a: string, b: string, f: seq<int>) {
    && |f| == |a|
    && (forall i :: 0 <= i < |f| ==> 0 <= f[i] < |b| && b[f[i]] == a[i])
    && (forall i, j :: 0 <= i < j < |f| ==> f[i] < f[j])
  }

  ghost predicate Subsequence(a: string, b: string) {
    exists f :: Embeds(a, b, f)
  }

  lemma SubsequenceTransitive(a: string, b: string, c: string)
    requires Subsequence(a, b) && Subsequence(b, c)
    ensures Subsequence(a, c)
  {
    var f :| Embeds(a, b, f);
    var g :| Embeds(b, c, g);
    assert Embeds(a, c, seq(|f|, i requires 0 <= i < |f| => g[f[i]]));
  }

  lemma SubsequenceConcat(a: string, b: string, c: string, d: string)
    requires Subsequence(a, b) && Subsequence(c, d)
    ensures Subsequence(a + c, b + d)
  {
    var f :| Embeds(a, b, f);
    var g :| Embeds(c, d, g);
    assert Embeds(a + c, b + d, f + seq(|g|, i requires 0 <= i < |g| => |b| + g[i]));
  }

  lemma SuffixIsSubsequence(s: string, n: nat)
    requires n <= |s|
    ensures Subsequence(s[n..], s)
  {
    assert Embeds(s[n..], s, seq(|s| - n, i => n + i));
  }
}
