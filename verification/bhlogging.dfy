/** A model of BHLogging's `RealAppLogger`: a logging facade that renders a
    call-site tag and a severity glyph in front of each message and hands the
    result to the platform's unified-logging sink.

    The pure string builders (`buildLogLevelPrefix`, `buildCallLocationPrefix`,
    `buildMessage`) are functions here, each with a decoder or an inverse beside
    it; the logger itself is a class whose only state is the sequence of
    records the sink has received.
 */
module BHLogging {

  datatype Option<T> = None | Some(value: T)

  /** The platform's severity type. The five named levels are the ones the
      logger distinguishes; `Other` stands for any further `OSLogType` value,
      which reaches the fallback branch of the glyph lookup. */
  datatype OSLogType = Debug | Info | Default | Error | Fault | Other

  /** Swift's `Int` on the 64-bit platforms the package targets. */
  newtype Int64 = x: int | -0x8000_0000_0000_0000 <= x < 0x8000_0000_0000_0000

  /** The origin of a log call: what `#fileID`, `#function` and `#line`
      supply at the call site. */
  datatype CallSite = CallSite(file: string, functionName: string, line: Int64)

  // ---------------------------------------------------------------------------
  // Splitting a string at the first or last occurrence of a character
  // ---------------------------------------------------------------------------

  /** The part of `s` before the first `c` (all of `s` when there is none). */
  function UpToFirst(s: string, c: char): (r: string)
    ensures r <= s && c !in r
    ensures |r| < |s| ==> s[|r|] == c
  {
    if |s| == 0 || s[0] == c then [] else [s[0]] + UpToFirst(s[1..], c)
  }

  /** The part of `s` after the first `c` (empty when there is none). */
  function AfterFirst(s: string, c: char): (r: string)
    ensures |r| <= |s| && r == s[|s| - |r|..]
  {
    if |s| == 0 then [] else if s[0] == c then s[1..] else AfterFirst(s[1..], c)
  }

  /** The part of `s` before the last `c` (empty when there is none). */
  function BeforeLast(s: string, c: char): (r: string)
    ensures r <= s
  {
    if |s| == 0 then [] else if s[|s| - 1] == c then s[..|s| - 1] else BeforeLast(s[..|s| - 1], c)
  }

  /** The part of `s` after the last `c` (all of `s` when there is none). */
  function AfterLast(s: string, c: char): (r: string)
    ensures |r| <= |s| && r == s[|s| - |r|..] && c !in r
    ensures |r| < |s| ==> s[|s| - |r| - 1] == c
  {
    if |s| == 0 || s[|s| - 1] == c then [] else AfterLast(s[..|s| - 1], c) + [s[|s| - 1]]
  }

  /** Splitting at the first `c` undoes joining with `c` when the left part has none. */
  lemma {:induction false} SplitAtFirst(x: string, c: char, y: string)
    requires c !in x
    ensures UpToFirst(x + [c] + y, c) == x
    ensures AfterFirst(x + [c] + y, c) == y
  {
    if |x| > 0 {
      assert (x + [c] + y)[1..] == x[1..] + [c] + y;
      SplitAtFirst(x[1..], c, y);
    }
  }

  /** Splitting at the last `c` undoes joining with `c` when the right part has none. */
  lemma {:induction false} SplitAtLast(x: string, c: char, y: string)
    requires c !in y
    ensures BeforeLast(x + [c] + y, c) == x
    ensures AfterLast(x + [c] + y, c) == y
  {
    var s := x + [c] + y;
    if |y| == 0 {
      assert s[..|s| - 1] == x;
    } else {
      assert s[..|s| - 1] == x + [c] + y[..|y| - 1];
      SplitAtLast(x, c, y[..|y| - 1]);
      assert y == y[..|y| - 1] + [y[|y| - 1]];
    }
  }

  // ---------------------------------------------------------------------------
  // Severity glyphs (RealAppLogger.swift, buildLogLevelPrefix)
  // ---------------------------------------------------------------------------

  /** The glyph written in front of every record sent through the generic
      path: a bracketed token without spaces. */
  function BuildLogLevelPrefix(level: OSLogType): (r: string)
    ensures |r| >= 3 && r[0] == '[' && r[|r| - 1] == ']' && ' ' !in r
  {
    match level
    case Debug => "[\U{1F6E0}\U{FE0F}]"
    case Info => "[\U{2139}\U{FE0F}]"
    case Default => "[\U{26A0}\U{FE0F}]"
    case Error => "[\U{1F6D1}]"
    case Fault => "[\U{1F4A5}]"
    case Other => "[Default]"
  }

  /** Reads a level back from its glyph. */
  function LevelOfPrefix(glyph: string): (r: Option<OSLogType>)
    ensures r.Some? ==> BuildLogLevelPrefix(r.value) == glyph
  {
    if glyph == BuildLogLevelPrefix(Debug) then Some(Debug)
    else if glyph == BuildLogLevelPrefix(Info) then Some(Info)
    else if glyph == BuildLogLevelPrefix(Default) then Some(Default)
    else if glyph == BuildLogLevelPrefix(Error) then Some(Error)
    else if glyph == BuildLogLevelPrefix(Fault) then Some(Fault)
    else if glyph == BuildLogLevelPrefix(Other) then Some(Other)
    else None
  }

  /** No two levels share a glyph: a glyph names its level exactly. */
  lemma LevelPrefixInverse(glyph: string, level: OSLogType)
    ensures LevelOfPrefix(glyph) == Some(level) <==> BuildLogLevelPrefix(level) == glyph
  {
  }

  /** The fallback text "[Default]" is the glyph of exactly the levels
      outside the five named ones. */
  lemma FallbackPrefix(level: OSLogType)
    ensures BuildLogLevelPrefix(level) == "[Default]" <==> level.Other?
  {
  }

  /** The lookup is injective: different levels never cross-map. */
  lemma LevelPrefixInjective(a: OSLogType, b: OSLogType)
    ensures BuildLogLevelPrefix(a) == BuildLogLevelPrefix(b) <==> a == b
  {
  }

  // ---------------------------------------------------------------------------
  // Decimal rendering of an integer, as Swift's string interpolation of an `Int`
  // ---------------------------------------------------------------------------

  predicate IsDigits(s: string) {
    forall i :: 0 <= i < |s| ==> '0' <= s[i] <= '9'
  }

  function DigitChar(d: nat): char
    requires d < 10
  {
    ('0' as int + d) as char
  }

  function DigitValue(c: char): nat
    requires '0' <= c <= '9'
  {
    c as int - '0' as int
  }

  /** The decimal digits of `n`: at least one, and no leading zero except in "0". */
  function NaturalDigits(n: nat): (r: string)
    ensures |r| >= 1 && IsDigits(r)
    ensures r[0] == '0' ==> r == "0"
    decreases n
  {
    if n < 10 then [DigitChar(n)] else NaturalDigits(n / 10) + [DigitChar(n % 10)]
  }

  /** The value of a string of decimal digits, most significant first. */
  function ParseDigits(s: string): nat
    requires IsDigits(s)
  {
    if |s| == 0 then 0 else ParseDigits(s[..|s| - 1]) * 10 + DigitValue(s[|s| - 1])
  }

  lemma {:induction false} ParseNaturalDigits(n: nat)
    ensures ParseDigits(NaturalDigits(n)) == n
    decreases n
  {
    var s := NaturalDigits(n);
    if n >= 10 {
      assert s[..|s| - 1] == NaturalDigits(n / 10);
      ParseNaturalDigits(n / 10);
    }
  }

  /** `n` in decimal, with a leading '-' exactly for negative numbers. Only
      digits and that sign occur, so the text holds no space, '+', '|' or ']'. */
  function Decimal(n: int): (r: string)
    ensures |r| >= 1
    ensures r[0] == '-' <==> n < 0
    ensures forall i :: 0 <= i < |r| ==> r[i] == '-' || '0' <= r[i] <= '9'
  {
    if n < 0 then "-" + NaturalDigits(-n) else NaturalDigits(n)
  }

  /** Reads an integer back from its decimal text. */
  function ParseDecimal(s: string): Option<int> {
    if |s| >= 2 && s[0] == '-' && IsDigits(s[1..]) then Some(-(ParseDigits(s[1..]) as int))
    else if |s| >= 1 && IsDigits(s) then Some(ParseDigits(s))
    else None
  }

  lemma DecimalRoundTrip(n: int)
    ensures ParseDecimal(Decimal(n)) == Some(n)
  {
    if n < 0 {
      var digits := NaturalDigits(-n);
      assert ("-" + digits)[1..] == digits;
      ParseNaturalDigits(-n);
    } else {
      var digits := NaturalDigits(n);
      assert digits[0] != '-';
      ParseNaturalDigits(n);
    }
  }

  /** Different line numbers render differently. */
  lemma DecimalInjective(a: int, b: int)
    ensures Decimal(a) == Decimal(b) <==> a == b
  {
    DecimalRoundTrip(a);
    DecimalRoundTrip(b);
  }

  // ---------------------------------------------------------------------------
  // Call-site tag and message (RealAppLogger.swift, buildCallLocationPrefix and
  // buildMessage)
  // ---------------------------------------------------------------------------

  /** The tag "[file | function + line]". It is bracketed and starts with the
      file name verbatim; `DecodeLocationPrefix` reads the call site back. */
  function BuildCallLocationPrefix(file: string, functionName: string, line: Int64): (r: string)
    ensures |r| >= 1 + |file| && r[0] == '[' && r[|r| - 1] == ']'
    ensures r[1..1 + |file|] == file
  {
    "[" + file + " | " + functionName + " + " + Decimal(line as int) + "]"
  }

  /** Reads the call site back from a tag: the file runs up to the first '|',
      the line follows the last '+', and the function lies between them. */
  function DecodeLocationPrefix(tag: string): Option<CallSite> {
    if |tag| < 2 || tag[0] != '[' || tag[|tag| - 1] != ']' then None
    else
      var inner := tag[1..|tag| - 1];
      var rest := AfterFirst(inner, '|');
      DecodeFields(UpToFirst(inner, '|'), BeforeLast(rest, '+'), AfterLast(rest, '+'))
  }

  /** The call site from "file ", " function " and " line", the three pieces
      of a tag between its separators. */
  function DecodeFields(head: string, mid: string, tail: string): Option<CallSite> {
    if |head| >= 1 && head[|head| - 1] == ' '
       && |mid| >= 2 && mid[0] == ' ' && mid[|mid| - 1] == ' '
       && |tail| >= 1 && tail[0] == ' '
    then
      match ParseDecimal(tail[1..])
      case Some(n) =>
        if -0x8000_0000_0000_0000 <= n < 0x8000_0000_0000_0000
        then Some(CallSite(head[..|head| - 1], mid[1..|mid| - 1], n as Int64))
        else None
      case None => None
    else None
  }

  /** The tag determines the call site whenever the file name holds no '|'
      (function names may hold anything). */
  lemma LocationPrefixRoundTrip(file: string, functionName: string, line: Int64)
    requires '|' !in file
    ensures DecodeLocationPrefix(BuildCallLocationPrefix(file, functionName, line)) == Some(CallSite(file, functionName, line))
  {
    var tag := BuildCallLocationPrefix(file, functionName, line);
    var head, mid, tail := file + " ", " " + functionName + " ", " " + Decimal(line as int);
    assert DecodeLocationPrefix(tag) == DecodeFields(head, mid, tail) by {
      var rest := mid + ['+'] + tail;
      LocationPrefixInner(file, functionName, line);
      SplitAtFirst(head, '|', rest);
      assert '+' !in tail;
      SplitAtLast(mid, '+', tail);
    }
    DecodeFieldsRoundTrip(file, functionName, line);
  }

  /** Between its brackets a tag is "file " '|' " function " '+' " line". */
  lemma LocationPrefixInner(file: string, functionName: string, line: Int64)
    ensures var tag := BuildCallLocationPrefix(file, functionName, line);
            tag[1..|tag| - 1]
            == (file + " ") + ['|'] + ((" " + functionName + " ") + ['+'] + (" " + Decimal(line as int)))
  {
  }

  lemma DecodeFieldsRoundTrip(file: string, functionName: string, line: Int64)
    ensures DecodeFields(file + " ", " " + functionName + " ", " " + Decimal(line as int))
         == Some(CallSite(file, functionName, line))
  {
    var head, mid, tail := file + " ", " " + functionName + " ", " " + Decimal(line as int);
    assert tail[1..] == Decimal(line as int);
    DecimalRoundTrip(line as int);
    assert ParseDecimal(tail[1..]) == Some(line as int);
    assert head[..|head| - 1] == file;
    assert mid[1..|mid| - 1] == functionName;
  }

  /** With '|' allowed in file names the tag is ambiguous: these two call
      sites render the same tag. */
  lemma LocationPrefixAmbiguous()
    ensures BuildCallLocationPrefix("a | b", "c", 1) == BuildCallLocationPrefix("a", "b | c", 1)
  {
  }

  /** The call-site tag, one space, then the message: the message is an
      unmodified suffix (no truncation, no escaping, also when empty). */
  function BuildMessage(message: string, file: string, functionName: string, line: Int64): (r: string)
    ensures |r| == |BuildCallLocationPrefix(file, functionName, line)| + 1 + |message|
    ensures r[|r| - |message|..] == message
    ensures r[0] == '['
  {
    BuildCallLocationPrefix(file, functionName, line) + " " + message
  }

  /** For one call site, distinct messages give distinct texts. */
  lemma BuildMessageInjective(m1: string, m2: string, file: string, functionName: string, line: Int64)
    ensures BuildMessage(m1, file, functionName, line) == BuildMessage(m2, file, functionName, line) <==> m1 == m2
  {
  }

  // ---------------------------------------------------------------------------
  // Records handed to the sink
  // ---------------------------------------------------------------------------

  /** How the platform is told to render the items of a `consoleLog` call. */
  datatype Privacy = Private | Public

  /** The variadic items of a `consoleLog` call (each by its textual
      description) and the privacy they are rendered with. */
  datatype Attachment = Attachment(items: seq<string>, privacy: Privacy)

  /** One write to the unified-logging sink. */
  datatype Record = Record(level: OSLogType, text: string, attachment: Option<Attachment>)

  /** What `logUnified` writes: the glyph of `level`, a space, then the message. */
  function UnifiedRecord(level: OSLogType, message: string): (r: Record)
    ensures r.level == level && r.attachment == None
    ensures |message| <= |r.text| && r.text[|r.text| - |message|..] == message
  {
    Record(level, BuildLogLevelPrefix(level) + " " + message, None)
  }

  /** Splits a record text at its first space into the glyph's level and the rest. */
  function DecodeUnifiedText(text: string): (Option<OSLogType>, string) {
    (LevelOfPrefix(UpToFirst(text, ' ')), AfterFirst(text, ' '))
  }

  /** The text of a unified record names its own level and carries the
      message unchanged after the glyph. */
  lemma UnifiedRecordDecodes(level: OSLogType, message: string)
    ensures DecodeUnifiedText(UnifiedRecord(level, message).text) == (Some(level), message)
  {
    var glyph := BuildLogLevelPrefix(level);
    assert UnifiedRecord(level, message).text == glyph + [' '] + message;
    SplitAtFirst(glyph, ' ', message);
    LevelPrefixInverse(glyph, level);
  }

  /** What `log(message, level, file, functionName, line)` writes, and what each
      fixed-severity method writes at its level. */
  function LogRecord(level: OSLogType, message: string, file: string, functionName: string, line: Int64): (r: Record)
    ensures r.level == level && r.attachment == None
    ensures |message| <= |r.text| && r.text[|r.text| - |message|..] == message
  {
    UnifiedRecord(level, BuildMessage(message, file, functionName, line))
  }

  /** What `consoleLog` writes: the tagged message with no glyph, at the
      requested level, with the items attached privately exactly when
      `isPrivate` holds. */
  function ConsoleRecord(message: string, items: seq<string>, isPrivate: bool, level: OSLogType,
                         file: string, functionName: string, line: Int64): (r: Record)
    ensures r.level == level
    ensures r.attachment.Some? && r.attachment.value.items == items
    ensures r.attachment.value.privacy == Private <==> isPrivate
    ensures |message| <= |r.text| && r.text[|r.text| - |message|..] == message
  {
    var privacy := if isPrivate then Private else Public;
    Record(level, BuildMessage(message, file, functionName, line), Some(Attachment(items, privacy)))
  }

  /** `consoleLog` differs from `log` at the same level only by the missing
      glyph and the attached items. */
  lemma ConsoleOmitsGlyph(message: string, items: seq<string>, isPrivate: bool, level: OSLogType,
                          file: string, functionName: string, line: Int64)
    ensures var c := ConsoleRecord(message, items, isPrivate, level, file, functionName, line);
            var g := LogRecord(level, message, file, functionName, line);
            && g.text == BuildLogLevelPrefix(level) + " " + c.text
            && c.text != g.text
            && DecodeUnifiedText(g.text) == (Some(level), c.text)
  {
    UnifiedRecordDecodes(level, BuildMessage(message, file, functionName, line));
  }

  /** A worked example: `info("Loaded 3 items")`
      called from `run()` at line 42 of Sync.swift is written at the info level
      as "[\U{2139}\U{FE0F}] [Sync.swift | run() + 42] Loaded 3 items". */
  lemma InfoExample()
    ensures LogRecord(Info, "Loaded 3 items", "Sync.swift", "run()", 42)
         == Record(Info, "[\U{2139}\U{FE0F}]" + " " + ("[Sync.swift | run() + 42]" + " " + "Loaded 3 items"), None)
  {
    TagExample();
  }

  /** The tag of that call site. */
  lemma TagExample()
    ensures BuildCallLocationPrefix("Sync.swift", "run()", 42) == "[Sync.swift | run() + 42]"
  {
  }

  // ---------------------------------------------------------------------------
  // The logger (RealAppLogger.swift): each call writes exactly one record
  // ---------------------------------------------------------------------------

  /** `RealAppLogger` with the platform sink it holds: `records` is every
      record the sink has received, oldest first. */
  class RealAppLogger {
    var records: seq<Record>

    constructor ()
      ensures records == []
    {
      records := [];
    }

    /** Prepends the glyph of `level` and writes one record at `level`. */
    method LogUnified(level: OSLogType, message: string)
      modifies this
      ensures records == old(records) + [UnifiedRecord(level, message)]
    {
      var logLevelPrefix := BuildLogLevelPrefix(level);
      var prefixedMessage := logLevelPrefix + " " + message;
      records := records + [Record(level, prefixedMessage, None)];
    }

    /** Writes the tagged message without a glyph, with the items attached
        privately or publicly. */
    method ConsoleLog(message: string, nameonly items: seq<string>, nameonly isPrivate: bool := true,
                      nameonly level: OSLogType := OSLogType.Info,
                      nameonly file: string, nameonly functionName: string, nameonly line: Int64)
      modifies this
      ensures records == old(records) + [ConsoleRecord(message, items, isPrivate, level, file, functionName, line)]
    {
      var text := BuildMessage(message, file, functionName, line);
      if isPrivate {
        records := records + [Record(level, text, Some(Attachment(items, Private)))];
      } else {
        records := records + [Record(level, text, Some(Attachment(items, Public)))];
      }
    }

    method Log(message: string, nameonly level: OSLogType := OSLogType.Info,
               nameonly file: string, nameonly functionName: string, nameonly line: Int64)
      modifies this
      ensures records == old(records) + [LogRecord(level, message, file, functionName, line)]
    {
      LogUnified(level, BuildMessage(message, file, functionName, line));
    }

    method Debug(message: string, nameonly file: string, nameonly functionName: string, nameonly line: Int64)
      modifies this
      ensures records == old(records) + [LogRecord(OSLogType.Debug, message, file, functionName, line)]
    {
      LogUnified(OSLogType.Debug, BuildMessage(message, file, functionName, line));
    }

    method Info(message: string, nameonly file: string, nameonly functionName: string, nameonly line: Int64)
      modifies this
      ensures records == old(records) + [LogRecord(OSLogType.Info, message, file, functionName, line)]
    {
      LogUnified(OSLogType.Info, BuildMessage(message, file, functionName, line));
    }

    /** There is no separate warning tier: warnings go out at the default level. */
    method Warning(message: string, nameonly file: string, nameonly functionName: string, nameonly line: Int64)
      modifies this
      ensures records == old(records) + [LogRecord(OSLogType.Default, message, file, functionName, line)]
    {
      LogUnified(OSLogType.Default, BuildMessage(message, file, functionName, line));
    }

    method Error(message: string, nameonly file: string, nameonly functionName: string, nameonly line: Int64)
      modifies this
      ensures records == old(records) + [LogRecord(OSLogType.Error, message, file, functionName, line)]
    {
      LogUnified(OSLogType.Error, BuildMessage(message, file, functionName, line));
    }

    method Fault(message: string, nameonly file: string, nameonly functionName: string, nameonly line: Int64)
      modifies this
      ensures records == old(records) + [LogRecord(OSLogType.Fault, message, file, functionName, line)]
    {
      LogUnified(OSLogType.Fault, BuildMessage(message, file, functionName, line));
    }
  }

  /** A caller's view, from the contracts alone: one `info` call on a fresh
      logger leaves exactly the documented record in the sink. */
  method InfoOnFreshLogger() returns (written: seq<Record>)
    ensures written == [Record(OSLogType.Info, "[\U{2139}\U{FE0F}]" + " " + ("[Sync.swift | run() + 42]" + " " + "Loaded 3 items"), None)]
  {
    var logger := new RealAppLogger();
    logger.Info("Loaded 3 items", file := "Sync.swift", functionName := "run()", line := 42);
    InfoExample();
    written := logger.records;
  }
}
