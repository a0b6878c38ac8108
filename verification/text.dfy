/** String helpers the plugin's messages and file names are built from:
    substring search (optionally ASCII case-insensitive, as a JavaScript
    regular expression with the `i` flag and no `u` flag compares letters),
    maximal character runs, decimal numerals, `Array.prototype.join` and the
    POSIX `path.basename`. */
module Text {

  predicate IsDigit(c: char) { '0' <= c <= '9' }

  /** The characters `.` in a JavaScript regular expression does not match. */
  predicate IsLineTerminator(c: char) {
    c == '\n' || c == '\r' || c == '\U{2028}' || c == '\U{2029}'
  }

  predicate NotLineTerminator(c: char) { !IsLineTerminator(c) }

  /** Canonical form of a character under the `i` flag, for matching against
      an ASCII pattern: only ASCII letters are folded. */
  function Upper(c: char): char {
    if 'a' <= c <= 'z' then (c as int - 32) as char else c
  }

  predicate SameChar(a: char, b: char, ignoreCase: bool) {
    if ignoreCase then Upper(a) == Upper(b) else a == b
  }

  /** `t` occurs in `s` starting at index `i`. */
  predicate OccursAt(s: string, t: string, i: int, ignoreCase: bool) {
    && 0 <= i
    && i + |t| <= |s|
    && forall k :: 0 <= k < |t| ==> SameChar(s[i + k], t[k], ignoreCase)
  }

  /** Left-to-right search for `t` in `s`, starting at index `i`. */
  predicate OccursFrom(s: string, t: string, i: nat, ignoreCase: bool)
    decreases |s| + 1 - i
  {
    && i + |t| <= |s|
    && (OccursAt(s, t, i, ignoreCase) || OccursFrom(s, t, i + 1, ignoreCase))
  }

  predicate Occurs(s: string, t: string, ignoreCase: bool) {
    OccursFrom(s, t, 0, ignoreCase)
  }

  /** The search finds `t` exactly when `t` occurs at some index at or after `i`. */
  lemma {:induction false} OccursFromMeans(s: string, t: string, i: nat, ignoreCase: bool)
    ensures OccursFrom(s, t, i, ignoreCase) <==> exists j :: i <= j && OccursAt(s, t, j, ignoreCase)
    decreases |s| + 1 - i
  {
    if i + |t| <= |s| {
      OccursFromMeans(s, t, i + 1, ignoreCase);
      if !OccursAt(s, t, i, ignoreCase) {
        forall j | i <= j && OccursAt(s, t, j, ignoreCase)
          ensures i + 1 <= j
        {
        }
      }
    }
  }

  lemma OccursMeans(s: string, t: string, ignoreCase: bool)
    ensures Occurs(s, t, ignoreCase) <==> exists j :: OccursAt(s, t, j, ignoreCase)
  {
    OccursFromMeans(s, t, 0, ignoreCase);
  }

  /** End of the maximal run of characters satisfying `p` that starts at `i`. */
  function Span(s: string, i: nat, p: char -> bool): (j: nat)
    requires i <= |s|
    ensures i <= j <= |s|
    ensures forall k :: i <= k < j ==> p(s[k])
    ensures j == |s| || !p(s[j])
    decreases |s| - i
  {
    if i < |s| && p(s[i]) then Span(s, i + 1, p) else i
  }

  predicate AllDigits(s: string) {
    forall k :: 0 <= k < |s| ==> IsDigit(s[k])
  }

  function DigitValue(c: char): nat
    requires IsDigit(c)
  {
    c as int - '0' as int
  }

  function DigitChar(d: nat): (c: char)
    requires d < 10
    ensures IsDigit(c) && DigitValue(c) == d
  {
    ('0' as int + d) as char
  }

  /** The number a string of decimal digits denotes (JavaScript's unary `+`
      on such a string). */
  function DecimalValue(ds: string): nat
    requires AllDigits(ds)
  {
    if |ds| == 0 then 0
    else 10 * DecimalValue(ds[..|ds| - 1]) + DigitValue(ds[|ds| - 1])
  }

  /** Decimal numeral of `n` (JavaScript's conversion of a non-negative
      integer to a string): non-empty, digits only, no leading zero. */
  function NatToString(n: nat): (r: string)
    ensures |r| > 0 && AllDigits(r)
    ensures |r| > 1 ==> r[0] != '0'
    ensures n > 0 ==> r[0] != '0'
  {
    if n < 10 then [DigitChar(n)]
    else NatToString(n / 10) + [DigitChar(n % 10)]
  }

  /** Reading back a printed numeral gives the number that was printed. */
  lemma {:induction false} DecimalRoundTrip(n: nat)
    ensures DecimalValue(NatToString(n)) == n
  {
    var r := NatToString(n);
    if n >= 10 {
      var prefix := NatToString(n / 10);
      assert r[..|r| - 1] == prefix;
      DecimalRoundTrip(n / 10);
    }
  }

  /** JavaScript's conversion of an integer-valued number to a string. */
  function IntToString(i: int): (r: string)
    ensures |r| > 0
    ensures i < 0 <==> r[0] == '-'
  {
    if i < 0 then "-" + NatToString(-i) else NatToString(i)
  }

  /** `Array.prototype.join` over strings. */
  function Join(xs: seq<string>, sep: string): string
  {
    if |xs| == 0 then ""
    else if |xs| == 1 then xs[0]
    else xs[0] + sep + Join(xs[1..], sep)
  }

  /** Joining two non-empty lists is joining each and gluing the halves with
      the separator. */
  lemma {:induction false} JoinConcat(a: seq<string>, b: seq<string>, sep: string)
    requires |a| > 0 && |b| > 0
    ensures Join(a + b, sep) == Join(a, sep) + sep + Join(b, sep)
  {
    if |a| == 1 {
      assert (a + b)[1..] == b;
    } else {
      assert (a + b)[1..] == a[1..] + b;
      JoinConcat(a[1..], b, sep);
    }
  }

  /** `p` with its trailing slashes removed. */
  function TrimTrailingSlashes(p: string): (r: string)
    ensures r <= p
    ensures r == "" || r[|r| - 1] != '/'
    ensures forall k :: |r| <= k < |p| ==> p[k] == '/'
  {
    if |p| > 0 && p[|p| - 1] == '/' then TrimTrailingSlashes(p[..|p| - 1]) else p
  }

  /** The part of `p` after its last slash (all of `p` when it has none). */
  function AfterLastSlash(p: string): (r: string)
    ensures |r| <= |p| && r == p[|p| - |r|..]
    ensures forall k :: 0 <= k < |r| ==> r[k] != '/'
    ensures |r| == |p| || p[|p| - |r| - 1] == '/'
  {
    if |p| == 0 || p[|p| - 1] == '/' then ""
    else AfterLastSlash(p[..|p| - 1]) + [p[|p| - 1]]
  }

  /** `path.posix.basename(p)`: the last segment of `p`, ignoring trailing
      slashes. */
  function Basename(p: string): (r: string)
    ensures forall k :: 0 <= k < |r| ==> r[k] != '/'
    ensures exists e :: IsLastSegment(p, r, e)
  {
    var q := TrimTrailingSlashes(p);
    var r := AfterLastSlash(q);
    assert IsLastSegment(p, r, |q|);
    r
  }

  /** `r` is the segment of `p` that ends at index `e`, the last index not
      followed by slashes only. */
  predicate IsLastSegment(p: string, r: string, e: int) {
    && |r| <= e <= |p|
    && (e == 0 || p[e - 1] != '/')
    && p[e - |r|..e] == r
    && (forall k :: e <= k < |p| ==> p[k] == '/')
    && (e == |r| || p[e - |r| - 1] == '/')
  }
}
