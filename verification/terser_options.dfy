/** `buildTerserOptions`: the engine configuration built from the user's
    `terserOptions`, with the engine defaults filled in. */
module TerserOptions {
  import opened Optional
  import opened Js
  import opened Sources

  /** The options object handed to the engine. `sourceMap` is `None` for
      `null` and `Some(m)` for `{ content: m }`. */
  datatype EngineOptions = EngineOptions(
    ecma: Value,
    warnings: Value,
    parse: Value,
    compress: Value,
    mangle: Value,
    output: map<string, Value>,
    sourceMap: Option<RawMap>,
    toplevel: Value,
    nameCache: Value,
    ie8: Value,
    keepClassnames: Value,
    keepFnames: Value,
    safari10: Value)

  /** The keys `buildTerserOptions` reads; every other key is dropped. */
  const ReadKeys: set<string> := {
    "ecma", "warnings", "parse", "compress", "mangle", "output",
    "toplevel", "nameCache", "ie8", "keep_classnames", "keep_fnames", "safari10"}

  /** Output defaults: keep a leading shebang, strip comments, do not
      beautify, keep semicolons. */
  const OutputDefaults: map<string, Value> := map[
    "shebang" := Bool(true),
    "comments" := Bool(false),
    "beautify" := Bool(false),
    "semicolons" := Bool(true)]

  /** A destructuring default: `x = {}` applies only when `x` is `undefined`. */
  function EmptyObjectIfUndefined(v: Value): (r: Value)
    ensures v == Undefined ==> r == Obj(map[])
    ensures v != Undefined ==> r == v
  {
    if v == Undefined then Obj(map[]) else v
  }

  function BuildTerserOptions(user: map<string, Value>): (o: EngineOptions)
    ensures o.sourceMap == None
    ensures o.ecma == Get(user, "ecma") && o.warnings == Get(user, "warnings")
    ensures o.toplevel == Get(user, "toplevel") && o.nameCache == Get(user, "nameCache")
    ensures o.ie8 == Get(user, "ie8") && o.safari10 == Get(user, "safari10")
    ensures o.keepClassnames == Get(user, "keep_classnames") && o.keepFnames == Get(user, "keep_fnames")
    ensures o.parse == (if Get(user, "parse") == Undefined then Obj(map[]) else Get(user, "parse"))
    ensures o.compress == (if Get(user, "compress") == Undefined then Obj(map[]) else Get(user, "compress"))
    ensures Get(user, "mangle") in {Undefined, Null} ==> o.mangle == Bool(true)
    ensures Get(user, "mangle") !in {Undefined, Null} ==> o.mangle == Get(user, "mangle")
    ensures o.output.Keys == OutputDefaults.Keys + (if Get(user, "output").Obj? then Get(user, "output").fields.Keys else {})
    ensures forall k :: k in o.output ==>
              o.output[k] == (if Get(user, "output").Obj? && k in Get(user, "output").fields
                              then Get(user, "output").fields[k] else OutputDefaults[k])
  {
    var mangle := Get(user, "mangle");
    EngineOptions(
      Get(user, "ecma"),
      Get(user, "warnings"),
      EmptyObjectIfUndefined(Get(user, "parse")),
      EmptyObjectIfUndefined(Get(user, "compress")),
      if mangle == Undefined || mangle == Null then Bool(true) else mangle,
      Assign(OutputDefaults, Get(user, "output")),
      None,
      Get(user, "toplevel"),
      Get(user, "nameCache"),
      Get(user, "ie8"),
      Get(user, "keep_classnames"),
      Get(user, "keep_fnames"),
      Get(user, "safari10"))
  }

  /** The engine options written back as a `terserOptions` object. */
  function AsUserOptions(o: EngineOptions): (m: map<string, Value>)
    ensures m.Keys == ReadKeys
  {
    map[
      "ecma" := o.ecma, "warnings" := o.warnings, "parse" := o.parse,
      "compress" := o.compress, "mangle" := o.mangle, "output" := Obj(o.output),
      "toplevel" := o.toplevel, "nameCache" := o.nameCache, "ie8" := o.ie8,
      "keep_classnames" := o.keepClassnames, "keep_fnames" := o.keepFnames,
      "safari10" := o.safari10]
  }

  /** Building the options is idempotent: the defaults it fills in are fixed
      points, so building again from its own result changes nothing. */
  lemma BuildIdempotent(user: map<string, Value>)
    ensures BuildTerserOptions(AsUserOptions(BuildTerserOptions(user))) == BuildTerserOptions(user)
  {
    var o := BuildTerserOptions(user);
    var m := AsUserOptions(o);
    var o' := BuildTerserOptions(m);
    AsUserOptionsReads(o);
    OutputDefaultsStay(Get(user, "output"));
    assert o'.output == o.output;
    assert o'.parse == o.parse && o'.compress == o.compress && o'.mangle == o.mangle;
  }

  /** Reading the written-back options gives the fields they came from. */
  lemma AsUserOptionsReads(o: EngineOptions)
    ensures var m := AsUserOptions(o);
            && Get(m, "ecma") == o.ecma && Get(m, "warnings") == o.warnings
            && Get(m, "parse") == o.parse && Get(m, "compress") == o.compress
            && Get(m, "mangle") == o.mangle && Get(m, "output") == Obj(o.output)
            && Get(m, "toplevel") == o.toplevel && Get(m, "nameCache") == o.nameCache
            && Get(m, "ie8") == o.ie8 && Get(m, "safari10") == o.safari10
            && Get(m, "keep_classnames") == o.keepClassnames && Get(m, "keep_fnames") == o.keepFnames
  {
  }

  /** Laying the output defaults under an output that already has them
      changes nothing. */
  lemma OutputDefaultsStay(v: Value)
    ensures Assign(OutputDefaults, Obj(Assign(OutputDefaults, v))) == Assign(OutputDefaults, v)
  {
    var once := Assign(OutputDefaults, v);
    var twice := Assign(OutputDefaults, Obj(once));
    assert twice.Keys == once.Keys;
    assert forall k :: k in twice ==> twice[k] == once[k];
  }

  /** Only the listed keys survive: any other key of `terserOptions`,
      `sourceMap` included, has no effect on the engine options. */
  lemma UnreadKeysIgnored(user: map<string, Value>, k: string, v: Value)
    requires k !in ReadKeys
    ensures BuildTerserOptions(user[k := v]) == BuildTerserOptions(user)
  {
    assert forall r :: r in ReadKeys ==> Get(user[k := v], r) == Get(user, r);
  }
}
