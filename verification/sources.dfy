/** Assets of the build, source maps, and the library services the plugin
    calls on them (`utils.isSourceMap`, `SourceMapConsumer`,
    `RequestShortener`, the md4 digest), which stay abstract. */
module Sources {
  import opened Optional

  /** A source map, recorded by how it was obtained. */
  datatype RawMap =
    | InputMap(handle: nat)
      // a map reported by an asset's `sourceAndMap()`
    | MinifiedMap(file: string, engineMap: string, input: string, inputMap: Option<RawMap>)
      // `new SourceMapSource(code, file, JSON.parse(engineMap), input, inputMap)`
    | PrefixedMap(prefix: string, inner: RawMap)
      // the map of `new ConcatSource(prefix, source)`: `inner` shifted past `prefix`

  /** An asset: its content, the map its `sourceAndMap()` reports, and
      whether it has a `sourceAndMap` method at all (every `webpack-sources`
      source has one; an object of another making may not). */
  datatype Asset = Asset(content: string, sourceMap: Option<RawMap>, hasSourceAndMap: bool)

  /** `consumer.originalPositionFor(...)`: each field is `null` when the
      position does not map. */
  datatype Position = Position(source: Option<string>, line: Option<int>, column: Option<int>)

  /** The library behaviour the plugin relies on without defining it. */
  datatype Host = Host(
    isSourceMap: RawMap -> bool,
    originalPositionFor: (RawMap, int, int) -> Position,
    shorten: string -> string,
    digest: string -> string,
    terserVersion: string,
    pluginVersion: string)

  /** `TerserPlugin.buildSourceMap(inputSourceMap)`: the map a
      `SourceMapConsumer` is built over, or `None` for `null`. */
  function BuildSourceMap(host: Host, inputSourceMap: Option<RawMap>): (r: Option<RawMap>)
    ensures r.Some? <==> inputSourceMap.Some? && host.isSourceMap(inputSourceMap.value)
    ensures r.Some? ==> r == inputSourceMap
  {
    if inputSourceMap.None? || !host.isSourceMap(inputSourceMap.value) then None
    else inputSourceMap
  }
}
