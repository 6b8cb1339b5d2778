# BHLogging: a Dafny model of `RealAppLogger`

BHLogging is a small Swift logging facade. Application code calls `debug`,
`info`, `warning`, `error`, `fault`, `log` or `consoleLog` with a message; the
concrete logger `RealAppLogger` tags the message with its call site
(`[file | function + line]`), puts a severity glyph in front of it (`[🛠️]`,
`[ℹ️]`, `[⚠️]`, `[🛑]`, `[💥]`, or `[Default]` for any other level) and writes
one record to the platform's unified-logging sink.

This project (`bhlogging.dfy`, module `BHLogging`) models that logger:

- `OSLogType` is the severity: the five levels the logger names, plus `Other`
  for any value that reaches the fallback branch of the glyph lookup. Swift's
  `Int` is the newtype `Int64`.
- The string builders `buildLogLevelPrefix`, `buildCallLocationPrefix` and
  `buildMessage` are the functions `BuildLogLevelPrefix`,
  `BuildCallLocationPrefix` and `BuildMessage`. The decimal rendering that
  Swift's interpolation applies to the line number is `Decimal`.
- Each builder has a partner proved against it. `LevelOfPrefix` reads a level
  back from its glyph. `ParseDecimal` reads a number back from its decimal
  text. `DecodeLocationPrefix` reads the call site back from a tag.
  `DecodeUnifiedText` splits a written record back into its level and its
  message.
- The sink is the field `records: seq<Record>` of the class `RealAppLogger`.
  A `Record` holds the level, the text and, for `consoleLog` only, the
  attached items with their privacy tag. Each of the seven public methods,
  and the private `logUnified`, appends exactly one record and changes
  nothing else. Its `ensures` names that record through a specification
  function (`UnifiedRecord`, `LogRecord`, `ConsoleRecord`), and the
  properties are proved about those functions.
- The defaults of the protocol extension are carried over as Dafny default
  parameter values: `level` defaults to `Info` and `isPrivate` to `true`.
  `items` has no default, because the concrete `consoleLog` declares none. The
  labelled Swift arguments are `nameonly` parameters.
  The call-site literals `#fileID`, `#function` and `#line` have no Dafny
  counterpart, so callers pass `file`, `function` and `line` explicitly. The
  parameter is called `functionName` because `function` is a Dafny keyword.

The tag determines its call site only when the file name holds no vertical
bar: `LocationPrefixRoundTrip` assumes that, and `LocationPrefixAmbiguous`
shows two call sites with the same tag once a file name holds one.

`RealAppLogger.swift:77-78` writes the glyph first, then a space, then the
tagged message, and this model does the same.

## Model

| member | source | states |
|---|---|---|
| `BHLogging.BuildLogLevelPrefix` | BHLogging/Sources/BHLogging/RealAppLogger.swift:83-92 | every glyph is a bracketed token with no space in it, so a record's first space ends its glyph |
| `BHLogging.LevelOfPrefix` | BHLogging/Sources/BHLogging/RealAppLogger.swift:83-92 | whatever level it reads from a glyph is the level whose glyph that is |
| `BHLogging.LevelPrefixInverse` | BHLogging/Sources/BHLogging/RealAppLogger.swift:83-92 | a glyph names its level exactly: `LevelOfPrefix(g) == Some(l)` if and only if `l` maps to `g` |
| `BHLogging.LevelPrefixInjective` | BHLogging/Sources/BHLogging/RealAppLogger.swift:84-91 | two levels get the same glyph only if they are the same level (no cross-mapping) |
| `BHLogging.FallbackPrefix` | BHLogging/Sources/BHLogging/RealAppLogger.swift:90 | "[Default]" is the glyph of exactly the levels outside debug, info, default, error and fault |
| `BHLogging.NaturalDigits` | BHLogging/Sources/BHLogging/RealAppLogger.swift:95 | the decimal form of a natural number is non-empty, all digits, and has no leading zero except "0" itself |
| `BHLogging.ParseNaturalDigits` | BHLogging/Sources/BHLogging/RealAppLogger.swift:95 | reading the digits back gives the number |
| `BHLogging.Decimal` | BHLogging/Sources/BHLogging/RealAppLogger.swift:95 | the rendered line number is non-empty, starts with '-' exactly when negative, and holds only digits and that sign |
| `BHLogging.DecimalRoundTrip` | BHLogging/Sources/BHLogging/RealAppLogger.swift:95 | parsing the rendered line number gives back the line number |
| `BHLogging.DecimalInjective` | BHLogging/Sources/BHLogging/RealAppLogger.swift:95 | distinct line numbers render as distinct text |
| `BHLogging.BuildCallLocationPrefix` | BHLogging/Sources/BHLogging/RealAppLogger.swift:94-96 | the tag is bracketed and starts with the file name verbatim |
| `BHLogging.LocationPrefixInner` | BHLogging/Sources/BHLogging/RealAppLogger.swift:95 | between its brackets the tag is the file, a space, a vertical bar, a space, the function, " + ", then the decimal line |
| `BHLogging.LocationPrefixRoundTrip` | BHLogging/Sources/BHLogging/RealAppLogger.swift:94-96 | decoding the tag gives back file, function and line whenever the file name holds no vertical bar |
| `BHLogging.LocationPrefixAmbiguous` | BHLogging/Sources/BHLogging/RealAppLogger.swift:95 | with a vertical bar in the file name, two different call sites render the same tag |
| `BHLogging.BuildMessage` | BHLogging/Sources/BHLogging/RealAppLogger.swift:98-100 | the composed text starts with the tag's '[' and ends with the message unmodified, exactly one character longer than tag and message together |
| `BHLogging.BuildMessageInjective` | BHLogging/Sources/BHLogging/RealAppLogger.swift:98-100 | for one call site, two messages give the same text only if they are equal (nothing is truncated or escaped) |
| `BHLogging.UnifiedRecord` | BHLogging/Sources/BHLogging/RealAppLogger.swift:76-81 | the record `logUnified` writes is at the requested level, has no attachment, and ends with the message |
| `BHLogging.UnifiedRecordDecodes` | BHLogging/Sources/BHLogging/RealAppLogger.swift:76-81 | splitting the written text at its first space yields the record's own level and the message unchanged |
| `BHLogging.LogRecord` | BHLogging/Sources/BHLogging/RealAppLogger.swift:29-34 | the record `log` writes is at the given level, has no attachment, and ends with the caller's message |
| `BHLogging.ConsoleRecord` | BHLogging/Sources/BHLogging/RealAppLogger.swift:21-27 | the record `consoleLog` writes is at the given level, carries the items, tags them private if and only if `isPrivate`, and ends with the message |
| `BHLogging.ConsoleOmitsGlyph` | BHLogging/Sources/BHLogging/RealAppLogger.swift:21-34 | the `consoleLog` text is the `log` text at the same level with the glyph and its space removed, so the two always differ |
| `BHLogging.InfoExample` | BHLogging/Sources/BHLogging/RealAppLogger.swift:43-48 | `info("Loaded 3 items")` from `run()` at line 42 of Sync.swift is written at info as the info glyph, a space, the tag of Sync.swift, run() and 42, a space, and the message |
| `BHLogging.InfoOnFreshLogger` | BHLogging/Sources/BHLogging/RealAppLogger.swift:43-48 | from the method contracts alone, the `info` call of `InfoExample` on a new logger leaves exactly that one record in the sink |
| `BHLogging.RealAppLogger.constructor` | BHLogging/Sources/BHLogging/RealAppLogger.swift:10-15 | a new logger's sink holds no records |
| `BHLogging.RealAppLogger.LogUnified` | BHLogging/Sources/BHLogging/RealAppLogger.swift:76-81 | appends exactly `UnifiedRecord(level, message)`; earlier records are unchanged |
| `BHLogging.RealAppLogger.ConsoleLog` | BHLogging/Sources/BHLogging/RealAppLogger.swift:21-27 | appends exactly the `ConsoleRecord` of its arguments, in either privacy branch; earlier records are unchanged |
| `BHLogging.RealAppLogger.Log` | BHLogging/Sources/BHLogging/RealAppLogger.swift:29-34 | appends exactly `LogRecord` at the caller's level, which defaults to info |
| `BHLogging.RealAppLogger.Debug` | BHLogging/Sources/BHLogging/RealAppLogger.swift:36-41 | appends the record `log` would write at debug |
| `BHLogging.RealAppLogger.Info` | BHLogging/Sources/BHLogging/RealAppLogger.swift:43-48 | appends the record `log` would write at info |
| `BHLogging.RealAppLogger.Warning` | BHLogging/Sources/BHLogging/RealAppLogger.swift:50-55 | appends the record `log` would write at the default level, because there is no separate warning tier |
| `BHLogging.RealAppLogger.Error` | BHLogging/Sources/BHLogging/RealAppLogger.swift:57-62 | appends the record `log` would write at error |
| `BHLogging.RealAppLogger.Fault` | BHLogging/Sources/BHLogging/RealAppLogger.swift:64-69 | appends the record `log` would write at fault |

## Left out

- The OSLog `Logger` (RealAppLogger.swift:14, 23, 25, 80) is a platform API. The sink is the `records` sequence. How OSLog renders an interpolation marked `.private` or `.public` is not visible in the source, so a record keeps only the privacy tag on its items, not the rendered output.
- The `consoleLog` items are `Any...` values that the interpolation on lines 23 and 25 renders right after the message. The model keeps each item as its textual description in the record's attachment. It does not model how Swift prints the array.
- `Sources/BHLogging/UnifiedLoggerFactory.swift` builds the platform logger from the bundle identifier, with "com.bh.logging" as the fallback. It is not part of this model because it is foreign calls only.
- `BHLogging/Sources/BHLogging/Injector.swift` registers the logger in the external Resolver container. It is not part of this model because it is integration glue with an external library.
- `Sources/BHLogging/AppLogger.swift` holds the protocol and its default-argument forwarders. Only the default values are carried over, as parameter defaults. The source-location literals `#fileID`, `#function` and `#line` are compiler features with no counterpart here.
- BHLogging.RealAppLogger.ConsoleLog: models the items the concrete method receives, not the items a caller passes through the protocol-extension forwarder. That forwarder (`Sources/BHLogging/AppLogger.swift:58-59`) passes its `[Any]` list on to a variadic `Any...` parameter, where the whole list becomes a single item. So a caller's `items: "a", "b"` reaches the concrete method as one item, the list itself, and no items at all arrive as one empty list. The forwarder is not part of this model.
- The sink's thread safety, and the order of these records relative to other log sources, belong to the platform and are not modelled.
