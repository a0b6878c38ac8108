/** The three regular expressions whose patterns the plugin fixes itself,
    interpreted concretely:
    - the license pattern `/^\**!|@preserve|@license|@cc_on/`,
    - the `'some'` pattern `/@preserve|@license|@cc_on/i`,
    - the warning-location pattern `/\[.+:([0-9]+),([0-9]+)\]/`. */
module Patterns {
  import opened Text
  import opened Optional

  /** `^\**!`: the text starts with zero or more `*` followed by `!`. */
  predicate StarsThenBang(s: string)
    decreases |s|
  {
    |s| > 0 && (s[0] == '!' || (s[0] == '*' && StarsThenBang(s[1..])))
  }

  /** The `!` of `^\**!` is at index `k`. */
  predicate BangAfterStars(s: string, k: int) {
    0 <= k < |s| && s[k] == '!' && forall j :: 0 <= j < k ==> s[j] == '*'
  }

  lemma {:induction false} StarsThenBangMeans(s: string)
    ensures StarsThenBang(s) <==> exists k :: BangAfterStars(s, k)
    decreases |s|
  {
    if |s| == 0 {
    } else if s[0] == '!' {
      assert BangAfterStars(s, 0);
    } else if s[0] == '*' {
      StarsThenBangMeans(s[1..]);
      if StarsThenBang(s[1..]) {
        var k :| BangAfterStars(s[1..], k);
        assert BangAfterStars(s, k + 1);
      } else {
        forall k | BangAfterStars(s, k)
          ensures false
        {
          assert BangAfterStars(s[1..], k - 1);
        }
      }
    }
  }

  /** `/^\**!|@preserve|@license|@cc_on/.test(s)`. */
  predicate LicenseMatch(s: string) {
    || StarsThenBang(s)
    || Occurs(s, "@preserve", false)
    || Occurs(s, "@license", false)
    || Occurs(s, "@cc_on", false)
  }

  /** `/@preserve|@license|@cc_on/i.test(s)`. */
  predicate SomeMatch(s: string) {
    || Occurs(s, "@preserve", true)
    || Occurs(s, "@license", true)
    || Occurs(s, "@cc_on", true)
  }

  /** Every text the license pattern accepts, the `'some'` pattern accepts too,
      except for the `^\**!` alternative, which it lacks. */
  lemma LicenseMarkersAreSomeMarkers(s: string)
    requires LicenseMatch(s) && !StarsThenBang(s)
    ensures SomeMatch(s)
  {
    forall t | t in ["@preserve", "@license", "@cc_on"] && Occurs(s, t, false)
      ensures Occurs(s, t, true)
    {
      OccursMeans(s, t, false);
      OccursMeans(s, t, true);
      var j :| OccursAt(s, t, j, false);
      assert OccursAt(s, t, j, true);
    }
  }

  /** A match of `\[.+:([0-9]+),([0-9]+)\]`: the indices of its `[`, of the
      colon before the first group, of the comma, and of its `]`. */
  datatype Location = Location(open: nat, colon: nat, comma: nat, close: nat)

  /** `:([0-9]+),([0-9]+)\]` matches with its colon at `colon`. */
  predicate IsTail(s: string, colon: int, comma: int, close: int) {
    && 0 <= colon && colon + 1 < comma && comma + 1 < close < |s|
    && s[colon] == ':'
    && (forall k :: colon < k < comma ==> IsDigit(s[k]))
    && s[comma] == ','
    && (forall k :: comma < k < close ==> IsDigit(s[k]))
    && s[close] == ']'
  }

  /** The whole pattern matches `s[l.open..l.close + 1]`. */
  predicate IsLocation(s: string, l: Location) {
    && IsTail(s, l.colon, l.comma, l.close)
    && l.open + 2 <= l.colon
    && s[l.open] == '['
    && (forall k :: l.open < k < l.colon ==> !IsLineTerminator(s[k]))
  }

  /** The tail of the pattern starting at `colon`, if it matches there. */
  function TailAt(s: string, colon: nat): (r: Option<(nat, nat)>)
    requires colon < |s|
    ensures r.Some? ==> IsTail(s, colon, r.value.0, r.value.1)
    ensures r.None? ==> forall m, b :: !IsTail(s, colon, m, b)
  {
    if s[colon] != ':' then None
    else
      var comma := Span(s, colon + 1, IsDigit);
      if comma == colon + 1 || comma == |s| || s[comma] != ',' then
        None
      else
        var close := Span(s, comma + 1, IsDigit);
        if close == comma + 1 || close == |s| || s[close] != ']' then
          None
        else
          Some((comma, close))
  }

  /** The greatest colon index in `[lo, hi)` at which the tail matches. */
  function LastTail(s: string, lo: nat, hi: nat): (r: Option<(nat, nat, nat)>)
    requires hi <= |s|
    ensures r.Some? ==> lo <= r.value.0 < hi && IsTail(s, r.value.0, r.value.1, r.value.2)
    ensures forall c, m, b :: lo <= c < hi && IsTail(s, c, m, b) ==> r.Some? && c <= r.value.0
    decreases hi
  {
    if hi <= lo then None
    else
      match TailAt(s, hi - 1)
      case Some((m, b)) => Some((hi - 1, m, b))
      case None => LastTail(s, lo, hi - 1)
  }

  /** The match of the pattern that starts with the `[` at `open`, taking the
      longest `.+` (the regular expression's greedy choice), if any. */
  function MatchAt(s: string, open: nat): (r: Option<Location>)
    requires open < |s|
    ensures r.Some? ==> IsLocation(s, r.value) && r.value.open == open
    ensures forall l :: IsLocation(s, l) && l.open == open ==> r.Some? && l.colon <= r.value.colon
  {
    if s[open] != '[' then None
    else
      var limit := Span(s, open + 1, NotLineTerminator);
      var found := LastTail(s, open + 2, limit);
      match found
      case Some((c, m, b)) => Some(Location(open, c, m, b))
      case None => None
  }

  /** `warningRegex.exec(s)` searching from index `i`: the leftmost match, and
      among matches starting there the one with the greedy `.+`. */
  function FindFrom(s: string, i: nat): (r: Option<Location>)
    requires i <= |s|
    ensures r.Some? ==> IsLocation(s, r.value) && i <= r.value.open
    ensures forall l :: IsLocation(s, l) && i <= l.open ==>
              && r.Some?
              && r.value.open <= l.open
              && (r.value.open == l.open ==> l.colon <= r.value.colon)
    decreases |s| - i
  {
    if i == |s| then None
    else
      match MatchAt(s, i)
      case Some(l) => Some(l)
      case None => FindFrom(s, i + 1)
  }

  /** `/\[.+:([0-9]+),([0-9]+)\]/.exec(s)`. */
  function WarningLocation(s: string): (r: Option<Location>)
    ensures r.Some? ==> IsLocation(s, r.value)
    ensures r.None? <==> forall l :: !IsLocation(s, l)
    ensures forall l :: IsLocation(s, l) ==>
              r.Some? && r.value.open <= l.open && (r.value.open == l.open ==> l.colon <= r.value.colon)
  {
    FindFrom(s, 0)
  }

  /** The first capture group, `match[1]`. */
  function LineDigits(s: string, l: Location): (ds: string)
    requires IsLocation(s, l)
    ensures AllDigits(ds) && |ds| > 0
  {
    s[l.colon + 1..l.comma]
  }

  /** The second capture group, `match[2]`. */
  function ColumnDigits(s: string, l: Location): (ds: string)
    requires IsLocation(s, l)
    ensures AllDigits(ds) && |ds| > 0
  {
    s[l.comma + 1..l.close]
  }

  /** `s.replace(warningRegex, '')`: `s` with the match removed. */
  function RemoveMatch(s: string, l: Location): (r: string)
    requires IsLocation(s, l)
    ensures |r| == |s| - (l.close + 1 - l.open)
    ensures r[..l.open] == s[..l.open]
    ensures r[l.open..] == s[l.close + 1..]
  {
    s[..l.open] + s[l.close + 1..]
  }

  /** A location fragment `[name:line,column]` as the plugin and the engine
      write it. */
  function Fragment(name: string, line: string, column: string): string {
    "[" + name + ":" + line + "," + column + "]"
  }

  /** The layout of `t + Fragment(name, ls, cs)`: where its parts sit. */
  lemma FragmentLayout(t: string, name: string, ls: string, cs: string)
    ensures var w := t + Fragment(name, ls, cs);
            var colon := |t| + 1 + |name|;
            var comma := colon + 1 + |ls|;
            var close := comma + 1 + |cs|;
            && |w| == close + 1
            && (forall k :: 0 <= k < |t| ==> w[k] == t[k])
            && w[|t|] == '['
            && (forall k :: |t| < k < colon ==> w[k] == name[k - |t| - 1])
            && w[colon] == ':'
            && (forall k :: colon < k < comma ==> w[k] == ls[k - colon - 1])
            && w[comma] == ','
            && (forall k :: comma < k < close ==> w[k] == cs[k - comma - 1])
            && w[close] == ']'
            && w[colon + 1..comma] == ls
            && w[comma + 1..close] == cs
  {
    var w := t + Fragment(name, ls, cs);
    assert w == t + "[" + name + ":" + ls + "," + cs + "]";
  }

  /** The fragment after `t` is a match of the location pattern. */
  lemma FragmentIsLocation(t: string, name: string, ls: string, cs: string)
    requires |name| > 0 && forall k :: 0 <= k < |name| ==> !IsLineTerminator(name[k])
    requires |ls| > 0 && AllDigits(ls) && |cs| > 0 && AllDigits(cs)
    ensures var colon := |t| + 1 + |name|;
            var comma := colon + 1 + |ls|;
            IsLocation(t + Fragment(name, ls, cs), Location(|t|, colon, comma, comma + 1 + |cs|))
  {
    FragmentLayout(t, name, ls, cs);
  }

  /** A match that starts no earlier than the fragment and whose colon is no
      earlier than the fragment's is the fragment itself. */
  lemma FragmentMatchUnique(t: string, name: string, ls: string, cs: string, l: Location)
    requires |ls| > 0 && AllDigits(ls) && |cs| > 0 && AllDigits(cs)
    requires IsLocation(t + Fragment(name, ls, cs), l)
    requires l.colon >= |t| + 1 + |name|
    ensures var colon := |t| + 1 + |name|;
            var comma := colon + 1 + |ls|;
            && l.colon == colon && l.comma == comma && l.close == comma + 1 + |cs|
            && l.close == |t + Fragment(name, ls, cs)| - 1
            && LineDigits(t + Fragment(name, ls, cs), l) == ls
            && ColumnDigits(t + Fragment(name, ls, cs), l) == cs
  {
    var w := t + Fragment(name, ls, cs);
    var colon := |t| + 1 + |name|;
    var comma := colon + 1 + |ls|;
    var close := comma + 1 + |cs|;
    FragmentLayout(t, name, ls, cs);
  }

  /** No match starts inside a prefix free of `[`. */
  lemma MatchNotInPrefix(t: string, rest: string, l: Location)
    requires forall k :: 0 <= k < |t| ==> t[k] != '['
    requires IsLocation(t + rest, l)
    ensures l.open >= |t|
  {
    assert forall k :: 0 <= k < |t| ==> (t + rest)[k] == t[k];
  }

  /** Reading a printed location back: in a warning that ends with
      `[name:line,column]` and has no `[` before it, the pattern finds exactly
      that fragment, and its groups denote `line` and `column`. */
  lemma FragmentRoundTrip(t: string, name: string, line: nat, column: nat)
    requires forall k :: 0 <= k < |t| ==> t[k] != '['
    requires |name| > 0 && forall k :: 0 <= k < |name| ==> !IsLineTerminator(name[k])
    ensures var w := t + Fragment(name, NatToString(line), NatToString(column));
            && WarningLocation(w).Some?
            && WarningLocation(w).value.open == |t|
            && WarningLocation(w).value.close == |w| - 1
            && DecimalValue(LineDigits(w, WarningLocation(w).value)) == line
            && DecimalValue(ColumnDigits(w, WarningLocation(w).value)) == column
  {
    var ls, cs := NatToString(line), NatToString(column);
    var w := t + Fragment(name, ls, cs);
    var colon := |t| + 1 + |name|;
    var comma := colon + 1 + |ls|;
    FragmentIsLocation(t, name, ls, cs);
    var r := WarningLocation(w).value;
    MatchNotInPrefix(t, Fragment(name, ls, cs), r);
    assert r.open == |t|;
    FragmentMatchUnique(t, name, ls, cs, r);
    DecimalRoundTrip(line);
    DecimalRoundTrip(column);
  }
}
