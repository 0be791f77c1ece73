/** The parts of java.lang.String that the allocation engine depends on:
    trim(), isBlank() and toLowerCase(), and the SKU normalisation built from them. */
module JavaText {

  /** String.trim() removes every leading and trailing char whose code is at most U+0020. */
  predicate TrimsAway(c: char) {
    c <= ' '
  }

  /** The leading half of trim(): drops trimmable chars from the front. */
  function TrimStart(s: string): string {
    if s != [] && TrimsAway(s[0]) then TrimStart(s[1..]) else s
  }

  /** The trailing half of trim(): drops trimmable chars from the back. */
  function TrimEnd(s: string): string {
    if s != [] && TrimsAway(s[|s| - 1]) then TrimEnd(s[..|s| - 1]) else s
  }

  /** TrimStart keeps a suffix that starts with a kept char and drops only trimmable chars. */
  lemma {:induction false} TrimStartDrops(s: string)
    ensures |TrimStart(s)| <= |s| && TrimStart(s) == s[|s| - |TrimStart(s)|..]
    ensures TrimStart(s) == [] || !TrimsAway(TrimStart(s)[0])
    ensures forall i :: 0 <= i < |s| - |TrimStart(s)| ==> TrimsAway(s[i])
  {
    if s != [] && TrimsAway(s[0]) {
      var r := s[1..];
      TrimStartDrops(r);
      var t := TrimStart(r);
      assert TrimStart(s) == t;
      assert s[|s| - |t|..] == r[|r| - |t|..];
      forall i | 0 <= i < |s| - |t| ensures TrimsAway(s[i]) {
        if i > 0 {
          assert s[i] == r[i - 1];
        }
      }
    }
  }

  /** TrimEnd keeps a prefix that ends with a kept char and drops only trimmable chars. */
  lemma {:induction false} TrimEndDrops(s: string)
    ensures |TrimEnd(s)| <= |s| && TrimEnd(s) == s[..|TrimEnd(s)|]
    ensures TrimEnd(s) == [] || !TrimsAway(TrimEnd(s)[|TrimEnd(s)| - 1])
    ensures forall i :: |TrimEnd(s)| <= i < |s| ==> TrimsAway(s[i])
  {
    if s != [] && TrimsAway(s[|s| - 1]) {
      var r := s[..|s| - 1];
      TrimEndDrops(r);
      var t := TrimEnd(r);
      assert TrimEnd(s) == t;
      assert s[..|t|] == r[..|t|];
      forall i | |t| <= i < |s| ensures TrimsAway(s[i]) {
        if i < |r| {
          assert s[i] == r[i];
        }
      }
    }
  }

  /** t is the slice of s starting at i, and everything of s around it is trimmable. */
  predicate TrimmedSliceAt(s: string, t: string, i: int) {
    && 0 <= i <= |s| - |t|
    && t == s[i..i + |t|]
    && (forall j :: 0 <= j < i ==> TrimsAway(s[j]))
    && (forall j :: i + |t| <= j < |s| ==> TrimsAway(s[j]))
  }

  /** String.trim(). */
  function Trim(s: string): string {
    TrimEnd(TrimStart(s))
  }

  /** trim() gives the slice of s left after dropping trimmable chars at both ends: it
      neither starts nor ends with a trimmable char, and only trimmable chars are gone. */
  lemma TrimIsTrimmedSlice(s: string)
    ensures var t := Trim(s);
            && (t == [] || (!TrimsAway(t[0]) && !TrimsAway(t[|t| - 1])))
            && exists i :: TrimmedSliceAt(s, t, i)
  {
    var u := TrimStart(s);
    TrimStartDrops(s);
    TrimEndDrops(u);
    var t := Trim(s);
    assert TrimmedSliceAt(s, t, |s| - |u|);
  }

  /** Character.isWhitespace: the ASCII controls U+0009..U+000D and U+001C..U+001F,
      and the Unicode space, line and paragraph separators other than the
      no-break spaces U+00A0, U+2007 and U+202F. */
  predicate IsJavaWhitespace(c: char) {
    || '\U{0009}' <= c <= '\U{000D}'
    || '\U{001C}' <= c <= '\U{0020}'
    || c == '\U{1680}'
    || '\U{2000}' <= c <= '\U{2006}'
    || '\U{2008}' <= c <= '\U{200A}'
    || c == '\U{2028}' || c == '\U{2029}' || c == '\U{205F}' || c == '\U{3000}'
  }

  /** String.isBlank(): empty, or only whitespace. */
  predicate IsBlank(s: string) {
    forall i :: 0 <= i < |s| ==> IsJavaWhitespace(s[i])
  }

  /** Character case mapping of String.toLowerCase() for the Basic Latin and
      Latin-1 letters: A..Z and U+00C0..U+00DE (except the sign U+00D7). */
  function LowerChar(c: char): (d: char)
    ensures TrimsAway(d) == TrimsAway(c)
  {
    if 'A' <= c <= 'Z' || ('\U{00C0}' <= c <= '\U{00DE}' && c != '\U{00D7}')
    then (c as int + 32) as char
    else c
  }

  /** String.toLowerCase(), char by char. */
  function ToLower(s: string): (r: string)
    ensures |r| == |s|
    ensures forall i :: 0 <= i < |s| ==> r[i] == LowerChar(s[i])
  {
    seq(|s|, i requires 0 <= i < |s| => LowerChar(s[i]))
  }

  /** The SKU normalisation the inventory client applies: sku.trim().toLowerCase(). */
  function NormalizeSku(s: string): string {
    ToLower(Trim(s))
  }

  lemma LowerCharIdempotent(c: char)
    ensures LowerChar(LowerChar(c)) == LowerChar(c)
  {
  }

  lemma {:induction false} TrimStartOfLower(s: string)
    ensures TrimStart(ToLower(s)) == ToLower(TrimStart(s))
  {
    if s != [] {
      assert ToLower(s)[1..] == ToLower(s[1..]);
      TrimStartOfLower(s[1..]);
    }
  }

  lemma {:induction false} TrimEndOfLower(s: string)
    ensures TrimEnd(ToLower(s)) == ToLower(TrimEnd(s))
  {
    if s != [] {
      assert ToLower(s)[..|s| - 1] == ToLower(s[..|s| - 1]);
      TrimEndOfLower(s[..|s| - 1]);
    }
  }

  /** Trimming a string that trim() already produced changes nothing. */
  lemma TrimOfTrimmed(t: string)
    requires t == [] || (!TrimsAway(t[0]) && !TrimsAway(t[|t| - 1]))
    ensures Trim(t) == t
  {
    assert TrimStart(t) == t;
  }

  /** Normalising a SKU twice is the same as normalising it once, so a key built from a
      normalised SKU equals the key built from the raw one. */
  lemma {:induction false} NormalizeSkuIdempotent(s: string)
    ensures NormalizeSku(NormalizeSku(s)) == NormalizeSku(s)
  {
    var t := Trim(s);
    TrimIsTrimmedSlice(s);
    TrimStartOfLower(t);
    TrimEndOfLower(TrimStart(t));
    TrimOfTrimmed(t);
    assert Trim(ToLower(t)) == ToLower(t);
    var l := ToLower(t);
    forall i | 0 <= i < |l| ensures ToLower(l)[i] == l[i] {
      LowerCharIdempotent(t[i]);
    }
  }

  /** A string is in normal form when normalising it leaves it as it is. */
  predicate IsNormalizedSku(s: string) {
    NormalizeSku(s) == s
  }

  /** The result of the normalisation is always in normal form. */
  lemma NormalizedSkuIsNormal(s: string)
    ensures IsNormalizedSku(NormalizeSku(s))
  {
    NormalizeSkuIdempotent(s);
  }
}
