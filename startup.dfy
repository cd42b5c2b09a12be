/**
 * Application start-up: where the data directory is looked for, the
 * OpenGL version the program accepts, how a log message becomes a line
 * of the log file, and the guard that stops start-up when the runtime
 * assets are missing. The clock, the file system and the OpenGL context
 * are parameters.
 */
module Startup {
  import opened Wrappers

  /** The platform the program was built for. */
  datatype Platform = Mac | Windows | OtherPlatform

  // ---------------------------------------------------------------------
  // _find_data_dir

  /** The directory the resource `resource` is read from, for a program
      installed in `appDir`. A Qt resource path (starting with ':') is used
      as it is; on a Mac bundle the data sits three levels above the
      executable; elsewhere the resource path is taken relative to the
      working directory. */
  function FindDataDir(resource: string, appDir: string, platform: Platform): (dir: string)
  {
    if |resource| > 0 && resource[0] == ':' then resource
    else if platform == Mac then appDir + "/../../../" + resource
    else resource
  }

  /** A resource path is never rewritten. */
  lemma FindDataDirKeepsResourcePaths(resource: string, appDir: string, platform: Platform)
    requires |resource| > 0 && resource[0] == ':'
    ensures FindDataDir(resource, appDir, platform) == resource
  {
  }

  /** Off the Mac the function is the identity; on the Mac a non-resource
      path ends with the resource and begins with the bundle's root,
      reached from the application directory. */
  lemma FindDataDirByPlatform(resource: string, appDir: string, platform: Platform)
    ensures platform != Mac ==> FindDataDir(resource, appDir, platform) == resource
    ensures platform == Mac && !(|resource| > 0 && resource[0] == ':') ==>
      var dir := FindDataDir(resource, appDir, platform);
      |dir| == |appDir| + 10 + |resource| &&
      dir[..|appDir|] == appDir &&
      dir[|appDir|..|appDir| + 10] == "/../../../" &&
      dir[|appDir| + 10..] == resource
  {
    if platform == Mac && !(|resource| > 0 && resource[0] == ':') {
      var dir := FindDataDir(resource, appDir, platform);
      assert dir == appDir + "/../../../" + resource;
      assert dir[..|appDir|] == appDir;
      assert dir[|appDir|..|appDir| + 10] == "/../../../";
      assert dir[|appDir| + 10..] == resource;
    }
  }

  // ---------------------------------------------------------------------
  // The version comparison in checkOpenGL

  /** The OpenGL version a build requires: 3.3 when built with
      USE_OPENGL_330, 4.1 otherwise. */
  datatype GLVersion = GLVersion(major: int, minor: int)

  function RequiredVersion(use330: bool): (v: GLVersion)
    ensures use330 ==> v == GLVersion(3, 3)
    ensures !use330 ==> v == GLVersion(4, 1)
  {
    if use330 then GLVersion(3, 3) else GLVersion(4, 1)
  }

  /** The check in checkOpenGL: a context is rejected when its major
      version is below the required one, or equal with a lower minor. */
  predicate VersionSupported(context: GLVersion, use330: bool)
  {
    var req := RequiredVersion(use330);
    !(context.major < req.major || (context.major == req.major && context.minor < req.minor))
  }

  /** The result of checkOpenGL: whether to go on, and the warning it logs
      when it does not, given by the version it names (WarningText gives
      the words). */
  datatype GLCheck = GLCheck(supported: bool, warning: Option<GLVersion>)

  function CheckOpenGL(context: GLVersion, use330: bool): (r: GLCheck)
    ensures r.supported == VersionSupported(context, use330)
    ensures r.warning.Some? <==> !r.supported
    ensures r.warning.Some? ==> r.warning.value == RequiredVersion(use330)
  {
    if VersionSupported(context, use330) then GLCheck(true, None)
    else GLCheck(false, Some(RequiredVersion(use330)))
  }

  /** A version as the messages write it: "major.minor". */
  function VersionText(v: GLVersion): string
    requires v.major >= 0 && v.minor >= 0
  {
    NatToString(v.major) + "." + NatToString(v.minor)
  }

  /** The position of the first '.' in `s`, or |s| when it has none. */
  function FirstDot(s: string): (i: nat)
    ensures i <= |s| && (i < |s| ==> s[i] == '.')
    ensures forall j :: 0 <= j < i ==> s[j] != '.'
  {
    if |s| == 0 || s[0] == '.' then 0 else 1 + FirstDot(s[1..])
  }

  /** Reads a "major.minor" text back. */
  function ParseVersion(t: string): GLVersion
  {
    var i := FirstDot(t);
    GLVersion(DigitsValue(t[..i]), if i < |t| then DigitsValue(t[i + 1..]) else 0)
  }

  /** The version named in a message can be read back from its text, so
      different versions give different texts. */
  lemma VersionTextRoundTrip(v: GLVersion)
    requires v.major >= 0 && v.minor >= 0
    ensures ParseVersion(VersionText(v)) == v
  {
    var major, minor := NatToString(v.major), NatToString(v.minor);
    var t := VersionText(v);
    assert forall j :: 0 <= j < |major| ==> t[j] == major[j];
    assert t[|major|] == '.';
    assert FirstDot(t) == |major|;
    assert t[..|major|] == major;
    assert t[|major| + 1..] == minor;
    NatToStringRoundTrip(v.major);
    NatToStringRoundTrip(v.minor);
  }

  /** The two builds' versions are written "3.3" and "4.1". */
  lemma RequiredVersionText(use330: bool)
    ensures VersionText(RequiredVersion(use330)) == if use330 then "3.3" else "4.1"
  {
  }

  /** The words of the warning up to the version. */
  function WarningHead(): string
  {
    "Error: This version of AwesomeBump does not support openGL versions lower than "
  }

  /** The warning logged for a context below `required`. */
  function WarningText(required: GLVersion): string
    requires required.major >= 0 && required.minor >= 0
  {
    WarningHead() + VersionText(required) + " :("
  }

  /** The warning names the required version right after its opening
      words: reading it back from there gives that version. */
  lemma WarningTextNamesVersion(required: GLVersion)
    requires required.major >= 0 && required.minor >= 0
    ensures var text := WarningText(required);
      |WarningHead()| <= |text| - 3 && text[..|WarningHead()|] == WarningHead()
      && ParseVersion(text[|WarningHead()|..|text| - 3]) == required
  {
    var text := WarningText(required);
    assert text[|WarningHead()|..|text| - 3] == VersionText(required);
    VersionTextRoundTrip(required);
  }

  /** Minor versions written as a single number: major * 10 + minor. */
  function VersionNumber(v: GLVersion): int
  {
    v.major * 10 + v.minor
  }

  /** For minor versions 0..9, the check accepts exactly the versions whose
      number is at least the required one's: the comparison is
      lexicographic on (major, minor). */
  lemma VersionSupportedIsLexicographic(context: GLVersion, use330: bool)
    requires 0 <= context.minor < 10
    ensures VersionSupported(context, use330) <==> VersionNumber(context) >= VersionNumber(RequiredVersion(use330))
  {
  }

  /** Any newer context than an accepted one is accepted. */
  lemma VersionSupportedMonotone(older: GLVersion, newer: GLVersion, use330: bool)
    requires VersionSupported(older, use330)
    requires older.major < newer.major || (older.major == newer.major && older.minor <= newer.minor)
    ensures VersionSupported(newer, use330)
  {
  }

  /** A 3.3 build accepts every context a 4.1 build accepts, and also the
      3.3 to 4.0 contexts a 4.1 build turns away. */
  lemma Use330Relaxes(context: GLVersion)
    ensures VersionSupported(context, false) ==> VersionSupported(context, true)
    ensures VersionSupported(context, true) && !VersionSupported(context, false) <==>
      (context.major == 3 && context.minor >= 3) || (context.major == 4 && context.minor < 1)
  {
  }

  // ---------------------------------------------------------------------
  // Decimal text

  function DigitChar(d: int): (c: char)
    requires 0 <= d < 10
    ensures '0' <= c <= '9' && c as int - '0' as int == d
  {
    ('0' as int + d) as char
  }

  /** The decimal text of `n`, without leading zeros. */
  function NatToString(n: nat): (s: string)
    ensures |s| > 0
    ensures forall i :: 0 <= i < |s| ==> '0' <= s[i] <= '9'
  {
    if n < 10 then [DigitChar(n)] else NatToString(n / 10) + [DigitChar(n % 10)]
  }

  /** The value of a string of decimal digits. */
  function DigitsValue(s: string): int
  {
    if |s| == 0 then 0 else DigitsValue(s[..|s| - 1]) * 10 + (s[|s| - 1] as int - '0' as int)
  }

  lemma {:induction false} NatToStringRoundTrip(n: nat)
    ensures DigitsValue(NatToString(n)) == n
  {
    if n >= 10 {
      NatToStringRoundTrip(n / 10);
      var s := NatToString(n);
      assert s[..|s| - 1] == NatToString(n / 10);
    }
  }

  /** `n` written with exactly `width` digits, zero-padded on the left. */
  function Padded(n: nat, width: nat): (s: string)
    requires n < Pow10(width)
    ensures |s| == width
    ensures forall i :: 0 <= i < |s| ==> '0' <= s[i] <= '9'
  {
    if width == 0 then [] else Padded(n / 10, width - 1) + [DigitChar(n % 10)]
  }

  function Pow10(k: nat): (p: nat)
    ensures p > 0
  {
    if k == 0 then 1 else 10 * Pow10(k - 1)
  }

  lemma {:induction false} PaddedRoundTrip(n: nat, width: nat)
    requires n < Pow10(width)
    ensures DigitsValue(Padded(n, width)) == n
  {
    if width > 0 {
      PaddedRoundTrip(n / 10, width - 1);
      var s := Padded(n, width);
      assert s[..|s| - 1] == Padded(n / 10, width - 1);
    }
  }

  // ---------------------------------------------------------------------
  // customMessageHandler

  /** A date and time as QDateTime hands it over. */
  datatype DateTime = DateTime(day: int, month: int, year: int, hour: int, minute: int, second: int)

  predicate ValidDateTime(t: DateTime)
  {
    1 <= t.day <= 31 && 1 <= t.month <= 12 && 0 <= t.year < 10000 &&
    0 <= t.hour < 24 && 0 <= t.minute < 60 && 0 <= t.second < 60
  }

  /** The time in the format dd/MM/yyyy hh:mm:ss. */
  function Timestamp(t: DateTime): (s: string)
    requires ValidDateTime(t)
    ensures |s| == 19
    ensures s[2] == '/' && s[5] == '/' && s[10] == ' ' && s[13] == ':' && s[16] == ':'
  {
    Padded(t.day, 2) + "/" + Padded(t.month, 2) + "/" + Padded(t.year, 4) + " " +
    Padded(t.hour, 2) + ":" + Padded(t.minute, 2) + ":" + Padded(t.second, 2)
  }

  /** Reads the fields back from a timestamp. */
  function ParseTimestamp(s: string): DateTime
    requires |s| == 19
  {
    DateTime(DigitsValue(s[0..2]), DigitsValue(s[3..5]), DigitsValue(s[6..10]),
             DigitsValue(s[11..13]), DigitsValue(s[14..16]), DigitsValue(s[17..19]))
  }

  /** The timestamp loses nothing: two different times give different
      log-line prefixes. */
  lemma TimestampRoundTrip(t: DateTime)
    requires ValidDateTime(t)
    ensures ParseTimestamp(Timestamp(t)) == t
  {
    var s := Timestamp(t);
    assert s[0..2] == Padded(t.day, 2);
    assert s[3..5] == Padded(t.month, 2);
    assert s[6..10] == Padded(t.year, 4);
    assert s[11..13] == Padded(t.hour, 2);
    assert s[14..16] == Padded(t.minute, 2);
    assert s[17..19] == Padded(t.second, 2);
    PaddedRoundTrip(t.day, 2);
    PaddedRoundTrip(t.month, 2);
    PaddedRoundTrip(t.year, 4);
    PaddedRoundTrip(t.hour, 2);
    PaddedRoundTrip(t.minute, 2);
    PaddedRoundTrip(t.second, 2);
  }

  /** The kinds of Qt log message. */
  datatype MsgType = DebugMsg | WarningMsg | CriticalMsg | FatalMsg | InfoMsg

  /** The tag written between the timestamp and the message. */
  function Tag(m: MsgType): string
  {
    match m
    case DebugMsg => "{Debug} \t\t "
    case WarningMsg => "{Warning} \t "
    case CriticalMsg => "{Critical} \t "
    case FatalMsg => "{Fatal} \t\t "
    case InfoMsg => ""
  }

  /** The line the handler builds before it writes, or Aborted: a fatal
      message has its text built and then aborts the program before any
      write. An info message keeps only the timestamp prefix. */
  datatype Formatted = Line(text: string) | Aborted

  function LinePrefix(timestamp: string): string
  {
    "[" + timestamp + "] "
  }

  function FormatMessage(m: MsgType, timestamp: string, msg: string): (r: Formatted)
    ensures r.Aborted? <==> m == FatalMsg
  {
    match m
    case FatalMsg => Aborted
    case InfoMsg => Line(LinePrefix(timestamp))
    case _ => Line(LinePrefix(timestamp) + Tag(m) + msg)
  }

  /** Every written line starts with the bracketed timestamp; debug,
      warning and critical lines go on with their tag and end with the
      message; an info line is the prefix alone. */
  lemma FormatMessageShape(m: MsgType, timestamp: string, msg: string)
    requires m != FatalMsg
    ensures var line := FormatMessage(m, timestamp, msg).text;
      var p := LinePrefix(timestamp);
      |line| >= |p| && line[..|p|] == p && line[0] == '[' && line[|timestamp| + 1] == ']' &&
      (m == InfoMsg ==> line == p) &&
      (m != InfoMsg ==>
        |line| == |p| + |Tag(m)| + |msg| &&
        line[|p|..|p| + |Tag(m)|] == Tag(m) &&
        line[|p| + |Tag(m)|..] == msg)
  {
    var line := FormatMessage(m, timestamp, msg).text;
    var p := LinePrefix(timestamp);
    if m != InfoMsg {
      assert line == p + Tag(m) + msg;
      assert line[..|p|] == p;
      assert line[|p|..|p| + |Tag(m)|] == Tag(m);
      assert line[|p| + |Tag(m)|..] == msg;
    }
  }

  /** Reads the kind of message back from a written line whose
      timestamp prefix has length `prefixLength`: a bare prefix is an info
      line, otherwise the first letter of the tag tells the kind. */
  function KindOfLine(line: string, prefixLength: nat): MsgType
  {
    if |line| <= prefixLength + 1 then InfoMsg
    else if line[prefixLength + 1] == 'D' then DebugMsg
    else if line[prefixLength + 1] == 'W' then WarningMsg
    else CriticalMsg
  }

  /** Every line the handler writes decodes to the kind of its message,
      and for tagged kinds the text after the tag is the message. */
  lemma {:induction false} KindOfLineRoundTrip(m: MsgType, timestamp: string, msg: string)
    requires m != FatalMsg
    ensures var line := FormatMessage(m, timestamp, msg).text;
      var n := |LinePrefix(timestamp)|;
      KindOfLine(line, n) == m &&
      (m != InfoMsg ==> line[n + |Tag(m)|..] == msg)
  {
    var line := FormatMessage(m, timestamp, msg).text;
    var n := |LinePrefix(timestamp)|;
    FormatMessageShape(m, timestamp, msg);
    if m != InfoMsg {
      var tag := Tag(m);
      assert line[n + 1] == line[n..n + |tag|][1] == tag[1];
    }
  }

  /** Two written lines with the same timestamp are equal only when they
      come from the same kind of message, and for tagged kinds from the
      same text: the log can be read back unambiguously. */
  lemma {:induction false} FormatMessageInjective(m1: MsgType, m2: MsgType, timestamp: string, msg1: string, msg2: string)
    requires m1 != FatalMsg && m2 != FatalMsg
    requires FormatMessage(m1, timestamp, msg1) == FormatMessage(m2, timestamp, msg2)
    ensures m1 == m2
    ensures m1 != InfoMsg ==> msg1 == msg2
  {
    KindOfLineRoundTrip(m1, timestamp, msg1);
    KindOfLineRoundTrip(m2, timestamp, msg2);
  }

  /** Where the handler appends its line: the log file when it opens, else
      a file of the same name in the home directory, else nowhere. */
  datatype HandlerOutcome = Appended(path: string, line: string) | Dropped | ProgramAborted

  /** The file name of a path (QFileInfo::fileName): the part after the
      last '/', the whole path when it has none. */
  function FileName(path: string): (r: string)
    ensures '/' !in r
    ensures |r| <= |path| && r == path[|path| - |r|..]
    ensures |r| < |path| ==> path[|path| - |r| - 1] == '/'
    decreases |path|
  {
    if path == [] || path[|path| - 1] == '/' then []
    else FileName(path[..|path| - 1]) + [path[|path| - 1]]
  }

  function HandleMessage(m: MsgType, now: DateTime, msg: string, logPath: string,
                         homeDir: string, logOpens: bool, homeLogOpens: bool): (r: HandlerOutcome)
    requires ValidDateTime(now)
    ensures r.ProgramAborted? <==> m == FatalMsg
    ensures r.Dropped? <==> m != FatalMsg && !logOpens && !homeLogOpens
    ensures r.Appended? ==>
      (r.path == if logOpens then logPath else homeDir + "/" + FileName(logPath)) &&
      r.line == FormatMessage(m, Timestamp(now), msg).text + "\n"
  {
    match FormatMessage(m, Timestamp(now), msg)
    case Aborted => ProgramAborted
    case Line(text) =>
      if logOpens then Appended(logPath, text + "\n")
      else if homeLogOpens then Appended(homeDir + "/" + FileName(logPath), text + "\n")
      else Dropped
  }

  // ---------------------------------------------------------------------
  // The resource-directory guard and the version check in main

  /** How start-up ends: with the critical box about missing runtime
      files under data directory `resDir`, with the dialog about an
      unsupported OpenGL version, or with the main window shown. The texts
      the two boxes show are given by MissingFilesText and UnsupportedText. */
  datatype StartupOutcome =
    | MissingRuntimeFiles(resDir: string, platform: Platform)
    | UnsupportedOpenGL(use330: bool, logName: string)
    | MainWindowShown

  /** The title of the critical message box about missing runtime files. */
  function MissingFilesTitle(): string
  {
    "Missing runtime files"
  }

  /** The closing words of the missing-files message: the data directory
      in parentheses. */
  function ResourcePathNote(resDir: string): string
  {
    "(resource path: " + resDir + ")."
  }

  function MissingFilesText(resDir: string, platform: Platform): string
  {
    (if platform == Mac then MissingFilesTitle() + "\n\n" else "")
    + "Cannot find runtime assets required to run the application " + ResourcePathNote(resDir)
  }

  /** The words of the unsupported-version message up to the version. */
  function UnsupportedHead(): string
  {
    "Sorry but it seems that your graphics card does not support openGL "
  }

  /** The closing words of the unsupported-version message: where to look
      for details. */
  function LogNote(logName: string): string
  {
    "See " + logName + " file for more info."
  }

  function UnsupportedText(use330: bool, logName: string): string
  {
    UnsupportedHead() + VersionText(RequiredVersion(use330)) + ".\nProgram will not run :(\n" + LogNote(logName)
  }

  /** The unsupported-version message names the version the build
      requires, "3.3" or "4.1", right after its opening words, and ends
      by pointing at the log file. */
  lemma UnsupportedTextNamesVersion(use330: bool, logName: string)
    ensures var text := UnsupportedText(use330, logName);
      var n := |UnsupportedHead()|;
      n + 3 <= |text| && text[..n] == UnsupportedHead()
      && text[n..n + 3] == (if use330 then "3.3" else "4.1")
      && ParseVersion(text[n..n + 3]) == RequiredVersion(use330)
    ensures var text := UnsupportedText(use330, logName);
      |LogNote(logName)| <= |text| && text[|text| - |LogNote(logName)|..] == LogNote(logName)
  {
    var text := UnsupportedText(use330, logName);
    var n := |UnsupportedHead()|;
    var version := VersionText(RequiredVersion(use330));
    var tail := ".\nProgram will not run :(\n" + LogNote(logName);
    RequiredVersionText(use330);
    VersionTextRoundTrip(RequiredVersion(use330));
    assert text == UnsupportedHead() + version + tail;
    assert text[n..n + 3] == version;
    assert text[|text| - |LogNote(logName)|..] == LogNote(logName);
  }

  /** Both runtime asset directories exist under `resDir`. */
  predicate AssetsPresent(resDir: string, dirs: set<string>)
  {
    resDir + "Configs" in dirs && resDir + "Core" in dirs
  }

  /** The start-up decision of main, for resource base `resourceBase`,
      the set `dirs` of paths that are directories, and the version of
      the context the OpenGL check obtains. */
  function StartApplication(resourceBase: string, appDir: string, platform: Platform, dirs: set<string>,
                            context: GLVersion, use330: bool, logName: string): (r: StartupOutcome)
    ensures r.MissingRuntimeFiles? ==> r.resDir == FindDataDir(resourceBase, appDir, platform) && r.platform == platform
    ensures r.UnsupportedOpenGL? ==> r.use330 == use330 && r.logName == logName
  {
    var resDir := FindDataDir(resourceBase, appDir, platform);
    if !AssetsPresent(resDir, dirs) then MissingRuntimeFiles(resDir, platform)
    else if !CheckOpenGL(context, use330).supported then UnsupportedOpenGL(use330, logName)
    else MainWindowShown
  }

  /** The main window opens exactly when both Configs and Core are
      directories under the data directory and the context's version is
      supported; missing assets are reported before the version is
      looked at. */
  lemma StartApplicationDecision(resourceBase: string, appDir: string, platform: Platform, dirs: set<string>,
                                 context: GLVersion, use330: bool, logName: string)
    ensures StartApplication(resourceBase, appDir, platform, dirs, context, use330, logName).MissingRuntimeFiles?
      <==> !AssetsPresent(FindDataDir(resourceBase, appDir, platform), dirs)
    ensures StartApplication(resourceBase, appDir, platform, dirs, context, use330, logName).UnsupportedOpenGL?
      <==> AssetsPresent(FindDataDir(resourceBase, appDir, platform), dirs) && !VersionSupported(context, use330)
    ensures StartApplication(resourceBase, appDir, platform, dirs, context, use330, logName).MainWindowShown?
      <==> AssetsPresent(FindDataDir(resourceBase, appDir, platform), dirs) && VersionSupported(context, use330)
  {
    var resDir := FindDataDir(resourceBase, appDir, platform);
    var r := StartApplication(resourceBase, appDir, platform, dirs, context, use330, logName);
    if !AssetsPresent(resDir, dirs) {
      assert r == MissingRuntimeFiles(resDir, platform);
    } else if !CheckOpenGL(context, use330).supported {
      assert r == UnsupportedOpenGL(use330, logName);
    } else {
      assert r == MainWindowShown;
    }
  }

  /** The missing-files message ends with the data directory in
      parentheses; the Mac build's message is the other builds' message
      with the title line in front. */
  lemma MissingFilesTextNamesDirectory(resDir: string, platform: Platform)
    ensures var text := MissingFilesText(resDir, platform);
      var note := ResourcePathNote(resDir);
      |text| >= |note| && text[|text| - |note|..] == note
    ensures platform == Mac ==>
      MissingFilesText(resDir, platform) == MissingFilesTitle() + "\n\n" + MissingFilesText(resDir, Windows)
  {
    var note := ResourcePathNote(resDir);
    var head := (if platform == Mac then MissingFilesTitle() + "\n\n" else "")
      + "Cannot find runtime assets required to run the application ";
    assert MissingFilesText(resDir, platform) == head + note;
    assert (head + note)[|head|..] == note;
  }
}
