/** The plugin's options and the constructor that fills in their defaults. */
module Config {
  import opened Optional
  import opened Js

  /** `extractComments.filename`: absent, a name, or a function of the asset's
      file name. */
  datatype FilenameOption = NoFilename | FilenameString(name: string) | FilenameFunction(handle: nat)

  /** `extractComments.banner`: absent, a boolean, a text, or a function of
      the comments file's name. */
  datatype BannerOption = NoBanner | BannerFlag(on: bool) | BannerString(text: string) | BannerFunction(handle: nat)

  /** The shapes the `extractComments` option takes. `condition` is `Some`
      exactly when the object has its own `condition` property. */
  datatype ExtractComments =
    | ExtractFlag(on: bool)
    | ExtractPattern(source: string)
    | ExtractRegExp(re: Regex)
    | ExtractFunction(handle: nat)
    | ExtractObject(condition: Option<Value>, filename: FilenameOption, banner: BannerOption)

  /** Truthiness of `extractComments`. */
  predicate ExtractEnabled(e: ExtractComments) {
    match e
    case ExtractFlag(on) => on
    case ExtractPattern(source) => source != ""
    case _ => true
  }

  /** `extractComments.filename`, which is `undefined` for every shape but an
      object. */
  function FilenameOf(e: ExtractComments): FilenameOption {
    if e.ExtractObject? then e.filename else NoFilename
  }

  /** `extractComments.banner`, likewise. */
  function BannerOf(e: ExtractComments): BannerOption {
    if e.ExtractObject? then e.banner else NoBanner
  }

  /** `warningsFilter`: the default `() => true`, or a user function. */
  datatype WarningsFilter = AcceptAll | UserFilter(handle: nat)

  /** `warningsFilter(source)`. */
  predicate Accepts(rt: Runtime, filter: WarningsFilter, source: Option<string>) {
    match filter
    case AcceptAll => true
    case UserFilter(h) => rt.callFilter(h, source)
  }

  /** The options object passed to `new TerserPlugin(options)`; `None` and
      `Undefined` stand for a property that is absent or `undefined`. */
  datatype UserOptions = UserOptions(
    terserOptions: Option<map<string, Value>>,
    test: Value,
    warningsFilter: Option<WarningsFilter>,
    extractComments: Option<ExtractComments>,
    sourceMap: Option<bool>,
    cache: Value,
    parallel: Value,
    includes: Value,
    excludes: Value)

  /** `this.options` after construction. */
  datatype PluginOptions = PluginOptions(
    test: Value,
    warningsFilter: WarningsFilter,
    extractComments: ExtractComments,
    sourceMap: bool,
    cache: Value,
    parallel: Value,
    includes: Value,
    excludes: Value,
    terserOptions: map<string, Value>)

  /** The default `output.comments`: none when comments are extracted,
      the license pattern otherwise. */
  function DefaultOutputComments(e: ExtractComments): (v: Value)
    ensures ExtractEnabled(e) ==> v == Bool(false)
    ensures !ExtractEnabled(e) ==> v == Re(LicenseRegex)
  {
    if ExtractEnabled(e) then Bool(false) else Re(LicenseRegex)
  }

  function OrDefault(v: Value, default: Value): Value {
    if v == Undefined then default else v
  }

  /** The constructor: destructuring defaults, then `terserOptions` spread
      over `{ output: { comments: ... } }`, so a user `output` replaces the
      whole default object. */
  function Construct(u: UserOptions): (o: PluginOptions)
    ensures o.extractComments == u.extractComments.GetOr(ExtractFlag(false))
    ensures o.warningsFilter == u.warningsFilter.GetOr(AcceptAll)
    ensures o.sourceMap == u.sourceMap.GetOr(false)
    ensures u.test == Undefined ==> o.test == Re(JsFileRegex)
    ensures u.test != Undefined ==> o.test == u.test
    ensures u.cache == Undefined ==> o.cache == Bool(false)
    ensures u.cache != Undefined ==> o.cache == u.cache
    ensures u.parallel == Undefined ==> o.parallel == Bool(false)
    ensures u.parallel != Undefined ==> o.parallel == u.parallel
    ensures o.includes == u.includes && o.excludes == u.excludes
    ensures o.terserOptions.Keys == {"output"} + u.terserOptions.GetOr(map[]).Keys
    ensures forall k :: k in u.terserOptions.GetOr(map[]) ==> o.terserOptions[k] == u.terserOptions.GetOr(map[])[k]
    ensures "output" !in u.terserOptions.GetOr(map[]) ==>
              o.terserOptions["output"] == Obj(map["comments" := DefaultOutputComments(o.extractComments)])
  {
    var extract := u.extractComments.GetOr(ExtractFlag(false));
    PluginOptions(
      OrDefault(u.test, Re(JsFileRegex)),
      u.warningsFilter.GetOr(AcceptAll),
      extract,
      u.sourceMap.GetOr(false),
      OrDefault(u.cache, Bool(false)),
      OrDefault(u.parallel, Bool(false)),
      u.includes,
      u.excludes,
      map["output" := Obj(map["comments" := DefaultOutputComments(extract)])] + u.terserOptions.GetOr(map[]))
  }
}
