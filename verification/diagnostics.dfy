/** `TerserPlugin.buildError` and `TerserPlugin.buildWarning`: how an engine
    error or warning becomes a compilation message, with its location
    translated through the input source map when one is usable. */
module Diagnostics {
  import opened Optional
  import opened Text
  import opened Patterns
  import opened Js
  import opened Sources
  import opened Config

  /** The first line of every error message. */
  function Header(file: string): string {
    file + " from Terser\n"
  }

  /** A nullable number in a template literal: `null` prints as `null`. */
  function ShowNullable(n: Option<int>): (r: string)
    ensures n.None? ==> r == "null"
    ensures n.Some? ==> r == IntToString(n.value)
  {
    if n.None? then "null" else IntToString(n.value)
  }

  /** `original && original.source`: the position maps to a named source. */
  predicate SourceTruthy(p: Position) {
    p.source.Some? && p.source.value != ""
  }

  /** The location fragment naming an original position. */
  function OriginFragment(host: Host, p: Position): string
    requires SourceTruthy(p)
  {
    Fragment(host.shorten(p.source.value), ShowNullable(p.line), ShowNullable(p.column))
  }

  /** The text after the header, in each of the three shapes the message takes. */
  function ErrorBody(host: Host, err: JsError, file: string, sourceMap: Option<RawMap>): string {
    if err.line != 0 then
      var here := Fragment(file, IntToString(err.line), IntToString(err.col));
      var original := if sourceMap.Some? then Some(host.originalPositionFor(sourceMap.value, err.line, err.col)) else None;
      if original.Some? && SourceTruthy(original.value) then
        err.message + " " + OriginFragment(host, original.value) + here
      else
        err.message + " " + here
    else if err.stack != "" then err.stack
    else err.message
  }

  /** `TerserPlugin.buildError(err, file, sourceMap, requestShortener).message`. */
  function BuildError(host: Host, err: JsError, file: string, sourceMap: Option<RawMap>): (r: string)
    ensures |Header(file)| <= |r| && r[..|Header(file)|] == Header(file)
    ensures err.line != 0 ==>
              var here := Fragment(file, IntToString(err.line), IntToString(err.col));
              |here| <= |r| && r[|r| - |here|..] == here
    ensures err.line == 0 && err.stack != "" ==> r[|Header(file)|..] == err.stack
    ensures err.line == 0 && err.stack == "" ==> r[|Header(file)|..] == err.message
  {
    var body := ErrorBody(host, err, file, sourceMap);
    var r := Header(file) + body;
    assert r[..|Header(file)|] == Header(file);
    assert r[|Header(file)|..] == body;
    assert err.line != 0 ==> var here := Fragment(file, IntToString(err.line), IntToString(err.col));
                             |here| <= |body| && body[|body| - |here|..] == here;
    r
  }

  /** An error with a location reports, right after its message, the
      original position when the map resolves one to a named source, and
      otherwise only the minified position. */
  lemma ErrorReportsOrigin(host: Host, err: JsError, file: string, sourceMap: Option<RawMap>)
    requires err.line != 0
    ensures var here := Fragment(file, IntToString(err.line), IntToString(err.col));
            var lead := Header(file) + err.message + " ";
            var r := BuildError(host, err, file, sourceMap);
            && |lead| <= |r| && r[..|lead|] == lead
            && (sourceMap.Some? && SourceTruthy(host.originalPositionFor(sourceMap.value, err.line, err.col)) ==>
                  r[|lead|..] == OriginFragment(host, host.originalPositionFor(sourceMap.value, err.line, err.col)) + here)
            && (sourceMap.None? || !SourceTruthy(host.originalPositionFor(sourceMap.value, err.line, err.col)) ==>
                  r[|lead|..] == here)
  {
    var here := Fragment(file, IntToString(err.line), IntToString(err.col));
    var lead := Header(file) + err.message + " ";
    var tail := if sourceMap.Some? && SourceTruthy(host.originalPositionFor(sourceMap.value, err.line, err.col))
                then OriginFragment(host, host.originalPositionFor(sourceMap.value, err.line, err.col)) + here
                else here;
    assert ErrorBody(host, err, file, sourceMap) == err.message + " " + tail;
    var r := BuildError(host, err, file, sourceMap);
    assert r == lead + tail;
  }

  /** The location an error reports can be read back with the plugin's own
      warning pattern: without a resolved original position, and with no `[`
      before it, the pattern finds the minified line and column. */
  lemma ErrorLocationReadable(host: Host, err: JsError, file: string, sourceMap: Option<RawMap>)
    requires err.line > 0 && err.col >= 0
    requires sourceMap.None? || !SourceTruthy(host.originalPositionFor(sourceMap.value, err.line, err.col))
    requires |file| > 0 && forall k :: 0 <= k < |file| ==> file[k] != '[' && !IsLineTerminator(file[k])
    requires forall k :: 0 <= k < |err.message| ==> err.message[k] != '['
    ensures var r := BuildError(host, err, file, sourceMap);
            && WarningLocation(r).Some?
            && DecimalValue(LineDigits(r, WarningLocation(r).value)) == err.line
            && DecimalValue(ColumnDigits(r, WarningLocation(r).value)) == err.col
  {
    var lead := Header(file) + err.message + " ";
    var r := BuildError(host, err, file, sourceMap);
    assert r == lead + Fragment(file, NatToString(err.line), NatToString(err.col));
    forall k | 0 <= k < |lead|
      ensures lead[k] != '['
    {
      if k < |file| {
        assert lead[k] == file[k];
      } else if |Header(file)| <= k < |Header(file)| + |err.message| {
        assert lead[k] == err.message[k - |Header(file)|];
      }
    }
    FragmentRoundTrip(lead, file, err.line, err.col);
  }

  /** The warning as rebuilt after its location was found at `l` and the
      filter accepted it. */
  function Relocated(host: Host, warning: string, l: Location, file: string, original: Position): (r: string)
    requires IsLocation(warning, l)
    ensures |RemoveMatch(warning, l)| <= |r| && r[..|RemoveMatch(warning, l)|] == RemoveMatch(warning, l)
  {
    var stripped := RemoveMatch(warning, l);
    if SourceTruthy(original) && original.source.value != file then
      stripped + OriginFragment(host, original)
    else
      stripped
  }

  /** The position the map gives for the warning's reported location. */
  function WarningOrigin(host: Host, sourceMap: RawMap, warning: string, l: Location): Position
    requires IsLocation(warning, l)
  {
    host.originalPositionFor(sourceMap, DecimalValue(LineDigits(warning, l)), DecimalValue(ColumnDigits(warning, l)))
  }

  /** A located warning: `null` when the filter rejects the original
      position's source, otherwise the relocated text. */
  function FilterLocated(host: Host, rt: Runtime, filter: WarningsFilter, warning: string, l: Location, file: string, sourceMap: RawMap)
    : (r: Option<string>)
    requires IsLocation(warning, l)
    ensures r.None? <==> !Accepts(rt, filter, WarningOrigin(host, sourceMap, warning, l).source)
    ensures r.Some? ==> |RemoveMatch(warning, l)| <= |r.value| && r.value[..|RemoveMatch(warning, l)|] == RemoveMatch(warning, l)
  {
    var original := WarningOrigin(host, sourceMap, warning, l);
    if !Accepts(rt, filter, original.source) then None
    else Some(Relocated(host, warning, l, file, original))
  }

  /** `TerserPlugin.buildWarning(warning, file, sourceMap, warningsFilter,
      requestShortener)`: `Returned(None)` is `null`; a warning without a
      location throws at `match[1]`. */
  function BuildWarning(host: Host, rt: Runtime, filter: WarningsFilter, warning: string, file: string, sourceMap: Option<RawMap>)
    : (r: Result<Option<string>>)
    ensures file == "" || sourceMap.None? ==> r == Returned(Some(warning))
    ensures r.Threw? <==> file != "" && sourceMap.Some? && WarningLocation(warning).None?
    ensures r.Threw? ==> r.error == Raise(rt, NoLocation(warning))
    ensures r == Returned(None) <==>
              && file != "" && sourceMap.Some? && WarningLocation(warning).Some?
              && !Accepts(rt, filter, WarningOrigin(host, sourceMap.value, warning, WarningLocation(warning).value).source)
    ensures file != "" && sourceMap.Some? && r.Returned? && r.value.Some? ==>
              var l := WarningLocation(warning).value;
              && |warning[..l.open] + warning[l.close + 1..]| <= |r.value.value|
              && r.value.value[..|warning| - (l.close + 1 - l.open)] == warning[..l.open] + warning[l.close + 1..]
  {
    if file == "" || sourceMap.None? then Returned(Some(warning))
    else
      var found := WarningLocation(warning);
      if found.None? then Threw(Raise(rt, NoLocation(warning)))
      else Returned(FilterLocated(host, rt, filter, warning, found.value, file, sourceMap.value))
  }

  /** A warning the engine located as `[file:line,column]`: the map is asked
      about exactly that line and column, and the fragment is replaced by
      the original position when that names another source, or dropped. */
  lemma WarningRelocatedRoundTrip(host: Host, rt: Runtime, filter: WarningsFilter, t: string, file: string,
                                  sourceMap: RawMap, line: nat, column: nat)
    requires forall k :: 0 <= k < |t| ==> t[k] != '['
    requires |file| > 0 && forall k :: 0 <= k < |file| ==> !IsLineTerminator(file[k])
    requires Accepts(rt, filter, host.originalPositionFor(sourceMap, line, column).source)
    ensures var warning := t + Fragment(file, NatToString(line), NatToString(column));
            var original := host.originalPositionFor(sourceMap, line, column);
            && (SourceTruthy(original) && original.source.value != file ==>
                  BuildWarning(host, rt, filter, warning, file, Some(sourceMap)) == Returned(Some(t + OriginFragment(host, original))))
            && (!SourceTruthy(original) || original.source.value == file ==>
                  BuildWarning(host, rt, filter, warning, file, Some(sourceMap)) == Returned(Some(t)))
  {
    var warning := t + Fragment(file, NatToString(line), NatToString(column));
    FragmentRoundTrip(t, file, line, column);
    var l := WarningLocation(warning).value;
    assert RemoveMatch(warning, l) == t;
  }
}
