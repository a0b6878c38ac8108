/** The JavaScript values the plugin's configuration is made of, and the
    runtime that interprets the functions and regular expressions among them.

    Functions are handles (`nat`) into the `Runtime`; a regular expression is
    its pattern text and flags. Both then compare by value, so configuration
    values have equality. */
module Js {
  import opened Optional
  import Patterns

  /** A thrown `Error` as far as the plugin reads one. A `line` of 0 stands
      for a missing (falsy) `err.line`, an empty `stack` for a missing stack. */
  datatype JsError = JsError(message: string, line: int, col: int, stack: string)

  /** The outcome of a JavaScript call: a value, or a thrown error. */
  datatype Result<+T> = Returned(value: T) | Threw(error: JsError)

  /** A regular expression literal or `new RegExp(source)`. */
  datatype Regex = Regex(source: string, flags: string)

  const LicenseRegex := Regex("^\\**!|@preserve|@license|@cc_on", "")
  const SomeRegex := Regex("@preserve|@license|@cc_on", "i")
  /** The default `test` option, `/\.js(\?.*)?$/i`. */
  const JsFileRegex := Regex("\\.js(\\?.*)?$", "i")

  /** The syntax node the engine is printing when it offers a comment. */
  datatype AstNode = AstNode(id: nat)

  /** A comment as the engine hands it to the comment hook; `kind` is
      `"comment1"` for `//` comments and `"comment2"` for block comments. */
  datatype Comment = Comment(kind: string, value: string)

  predicate IsBlock(c: Comment) { c.kind == "comment2" }

  /** A comment together with the node it is attached to. */
  datatype CommentSite = CommentSite(node: AstNode, comment: Comment)

  /** A configuration value. `Num` holds integer-valued numbers only. */
  datatype Value =
    | Undefined
    | Null
    | Bool(b: bool)
    | Num(n: int)
    | Str(s: string)
    | Re(re: Regex)
    | Fn(handle: nat)
    | Obj(fields: map<string, Value>)

  /** JavaScript truthiness. */
  predicate Truthy(v: Value) {
    match v
    case Undefined => false
    case Null => false
    case Bool(b) => b
    case Num(n) => n != 0
    case Str(s) => s != ""
    case _ => true
  }

  /** Property read `o[key]` on a plain object. */
  function Get(fields: map<string, Value>, key: string): Value {
    if key in fields then fields[key] else Undefined
  }

  /** `Object.assign({...target}, source)`: an object contributes its own
      properties (overriding `target`'s), while `null`, `undefined`, booleans,
      numbers, regular expressions and functions contribute none. A string's
      indexed characters are not modelled (a string contributes none). */
  function Assign(target: map<string, Value>, source: Value): (r: map<string, Value>)
    ensures r.Keys == target.Keys + (if source.Obj? then source.fields.Keys else {})
    ensures forall k :: k in r ==> r[k] == (if source.Obj? && k in source.fields then source.fields[k] else target[k])
  {
    match source
    case Obj(fields) => target + fields
    case _ => target
  }

  /** Why a JavaScript operation in the plugin throws. */
  datatype Fault =
    | NotAFunction(what: string)        // `x.test(...)` on a value without a `test` method
    | InvalidPattern(source: string)    // `new RegExp(source)` rejects `source`
    | MissingAsset(file: string)        // `compilation.assets[file]` is `undefined`
    | NoLocation(warning: string)       // `warningRegex.exec(warning)` is `null`
    | MissingTask(index: nat)           // `tasks[index]` is `undefined`

  /** The behaviour of code the plugin calls but does not define: user
      callbacks (through their handles), `RegExp.prototype.test` on patterns
      the plugin does not fix itself, and the message and stack of the errors
      JavaScript throws (see `Raise`). */
  datatype Runtime = Runtime(
    test: (Regex, string) -> bool,
    accepts: string -> bool,
    callComment: (nat, AstNode, Comment) -> bool,
    callString: (nat, string) -> string,
    callFilter: (nat, Option<string>) -> bool,
    raise: Fault -> JsError)

  /** `re.test(s)`: the plugin's own patterns are interpreted concretely. */
  predicate Test(rt: Runtime, re: Regex, s: string) {
    if re == LicenseRegex then Patterns.LicenseMatch(s)
    else if re == SomeRegex then Patterns.SomeMatch(s)
    else rt.test(re, s)
  }

  /** The error a fault throws. The runtime chooses its message and stack;
      JavaScript's own TypeErrors and SyntaxErrors have no `line` or `col`,
      which `0` stands for, so they are never reported with a location. */
  function Raise(rt: Runtime, f: Fault): (e: JsError)
    ensures e.line == 0
    ensures e.message == rt.raise(f).message && e.stack == rt.raise(f).stack
  {
    rt.raise(f).(line := 0, col := 0)
  }

  /** `new RegExp(source).test(s)`. */
  function TestSource(rt: Runtime, source: string, s: string): (r: Result<bool>)
    ensures r.Threw? <==> !rt.accepts(source)
    ensures r.Returned? ==> (r.value <==> Test(rt, Regex(source, ""), s))
  {
    if rt.accepts(source) then Returned(Test(rt, Regex(source, ""), s))
    else Threw(Raise(rt, InvalidPattern(source)))
  }
}
