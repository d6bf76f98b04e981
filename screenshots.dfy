/**
 * ScreenshotUtils: how both captureScreenshot overloads build the file path,
 * and what each returns. The capture, mkdirs and copy are I/O; the model
 * records which of them are attempted and takes their success as given.
 */
module Screenshots {
  import opened Wrappers
  import opened JavaText
  import opened Config

  const SCREENSHOT_PATH_KEY: string := "screenshot.path"
  const DEFAULT_SCREENSHOT_DIR: string := "screenshots/"

  /** SCREENSHOT_DIR: screenshot.path, or "screenshots/" when unset. */
  function ScreenshotDir(props: Properties): (dir: string)
    ensures SCREENSHOT_PATH_KEY in props ==> dir == props[SCREENSHOT_PATH_KEY]
    ensures SCREENSHOT_PATH_KEY !in props ==> dir == DEFAULT_SCREENSHOT_DIR
  {
    GetPropertyOr(props, SCREENSHOT_PATH_KEY, DEFAULT_SCREENSHOT_DIR)
  }

  /*
   * Sanitizing: replaceAll("[^a-zA-Z0-9]", "_").
   */

  predicate IsAsciiAlphanumeric(c: char) {
    ('a' <= c <= 'z') || ('A' <= c <= 'Z') || ('0' <= c <= '9')
  }

  /** The characters a sanitized name may contain. */
  predicate IsSafeChar(c: char) {
    IsAsciiAlphanumeric(c) || c == '_'
  }

  predicate IsSafeName(s: string) {
    forall i :: 0 <= i < |s| ==> IsSafeChar(s[i])
  }

  /** One character through the regex: kept when it is an ASCII letter or digit, else '_'. */
  function SanitizeChar(c: char): (d: char)
    ensures IsSafeChar(d)
    ensures IsAsciiAlphanumeric(c) ==> d == c
    ensures !IsAsciiAlphanumeric(c) ==> d == '_'
  {
    if IsAsciiAlphanumeric(c) then c else '_'
  }

  /** The whole name through the regex, one character at a time. */
  function Sanitize(s: string): (r: string)
    ensures |r| == |s|
    ensures forall i :: 0 <= i < |s| ==> r[i] == SanitizeChar(s[i])
  {
    if s == [] then [] else [SanitizeChar(s[0])] + Sanitize(s[1..])
  }

  /** A sanitized name holds only ASCII letters, digits and '_'. */
  lemma SanitizeSafe(s: string)
    ensures IsSafeName(Sanitize(s))
  {
  }

  /** Sanitizing leaves a string unchanged exactly when it is already safe. */
  lemma SanitizeFixedPoint(s: string)
    ensures Sanitize(s) == s <==> IsSafeName(s)
  {
    if IsSafeName(s) {
      forall i | 0 <= i < |s| ensures Sanitize(s)[i] == s[i] {
        assert IsSafeChar(s[i]);
      }
    }
  }

  /** Sanitizing twice is sanitizing once. */
  lemma SanitizeIdempotent(s: string)
    ensures Sanitize(Sanitize(s)) == Sanitize(s)
  {
    SanitizeSafe(s);
    SanitizeFixedPoint(Sanitize(s));
  }

  /*
   * The timestamp: new SimpleDateFormat("yyyyMMdd_HHmmss").format(new Date()).
   * The clock reading is a parameter.
   */

  /** A local date and time as the formatter sees it. */
  datatype DateTime = DateTime(year: nat, month: nat, day: nat, hour: nat, minute: nat, second: nat)

  predicate ValidDateTime(t: DateTime) {
    && t.year <= 9999 && 1 <= t.month <= 12 && 1 <= t.day <= 31
    && t.hour <= 23 && t.minute <= 59 && t.second <= 59
  }

  function Zeros(n: nat): (s: string)
    ensures |s| == n && AllDigits(s)
  {
    if n == 0 then [] else Zeros(n - 1) + ['0']
  }

  /** A number in at least `width` digits, zero-filled on the left, as a pattern letter repeated `width` times prints it. */
  function Pad(n: nat, width: nat): (s: string)
    ensures AllDigits(s)
    ensures |s| == if |Decimal(n)| < width then width else |Decimal(n)|
  {
    var digits := Decimal(n);
    if |digits| < width then Zeros(width - |digits|) + digits else digits
  }

  function Pow10(k: nat): (p: nat)
    ensures p >= 1
  {
    if k == 0 then 1 else 10 * Pow10(k - 1)
  }

  /** A number below 10^k has at most k digits. */
  lemma {:induction false} DecimalLength(n: nat, k: nat)
    requires 1 <= k && n < Pow10(k)
    ensures |Decimal(n)| <= k
  {
    if n >= 10 {
      assert Pow10(1) == 10;
      assert n / 10 < Pow10(k - 1);
      DecimalLength(n / 10, k - 1);
    }
  }

  /** new SimpleDateFormat("yyyyMMdd_HHmmss").format(now): every field at least as wide as its pattern letters. */
  function FormatTimestamp(t: DateTime): (r: string)
    ensures |r| >= 15
    ensures '_' in r
  {
    var date := Pad(t.year, 4) + Pad(t.month, 2) + Pad(t.day, 2);
    assert (date + "_")[|date|] == '_';
    Pad(t.year, 4) + Pad(t.month, 2) + Pad(t.day, 2) + "_" + Pad(t.hour, 2) + Pad(t.minute, 2) + Pad(t.second, 2)
  }

  /** Every character of a timestamp is a digit or the '_' between date and time. */
  lemma TimestampSafe(t: DateTime)
    ensures IsSafeName(FormatTimestamp(t))
  {
    var s := FormatTimestamp(t);
    forall i | 0 <= i < |s| ensures IsSafeChar(s[i]) {
    }
  }

  /** For a real date and time the timestamp is 15 characters: eight digits, '_', six digits. */
  lemma TimestampLayout(t: DateTime)
    requires ValidDateTime(t)
    ensures |FormatTimestamp(t)| == 15
    ensures FormatTimestamp(t)[8] == '_'
    ensures forall i :: 0 <= i < 15 && i != 8 ==> IsDigit(FormatTimestamp(t)[i])
  {
    assert Pow10(2) == 100 && Pow10(4) == 10000;
    DecimalLength(t.year, 4);
    DecimalLength(t.month, 2);
    DecimalLength(t.day, 2);
    DecimalLength(t.hour, 2);
    DecimalLength(t.minute, 2);
    DecimalLength(t.second, 2);
  }

  /*
   * File names and paths.
   */

  const EXTENSION: string := ".png"

  /** captureScreenshot(fileName, includeTimestamp): the sanitized name, "_" and the timestamp when asked, ".png". */
  function ScreenshotFileName(fileName: string, includeTimestamp: bool, now: DateTime): (r: string)
    ensures |r| == |fileName| + (if includeTimestamp then 1 + |FormatTimestamp(now)| else 0) + 4
    ensures r[|r| - 4..] == EXTENSION
  {
    Sanitize(fileName) + (if includeTimestamp then "_" + FormatTimestamp(now) else "") + EXTENSION
  }

  /** captureScreenshot(scenarioName): always the sanitized name, "_", the timestamp and ".png". */
  function ScenarioFileName(scenarioName: string, now: DateTime): (r: string)
    ensures |r| == |scenarioName| + 1 + |FormatTimestamp(now)| + 4
    ensures r[|r| - 4..] == EXTENSION
  {
    Sanitize(scenarioName) + "_" + FormatTimestamp(now) + EXTENSION
  }

  /** The one-argument overload names the file as the two-argument one does with a timestamp. */
  lemma ScenarioNameIsTimestamped(scenarioName: string, now: DateTime)
    ensures ScenarioFileName(scenarioName, now) == ScreenshotFileName(scenarioName, true, now)
  {
    assert Sanitize(scenarioName) + "_" + FormatTimestamp(now) + EXTENSION
        == Sanitize(scenarioName) + ("_" + FormatTimestamp(now)) + EXTENSION;
  }

  /**
   * A file name ends in ".png", and everything before it is safe; with a
   * real timestamp its length is the original's plus 20, or plus 4 without.
   */
  lemma FileNameShape(fileName: string, includeTimestamp: bool, now: DateTime)
    ensures var name := ScreenshotFileName(fileName, includeTimestamp, now);
      && |name| >= 4
      && name[|name| - 4..] == EXTENSION
      && IsSafeName(name[..|name| - 4])
    ensures ValidDateTime(now) ==>
      |ScreenshotFileName(fileName, includeTimestamp, now)| == |fileName| + (if includeTimestamp then 20 else 4)
  {
    var name := ScreenshotFileName(fileName, includeTimestamp, now);
    var stem := Sanitize(fileName) + (if includeTimestamp then "_" + FormatTimestamp(now) else "");
    assert name == stem + EXTENSION;
    assert name[..|name| - 4] == stem;
    assert name[|name| - 4..] == EXTENSION;
    SanitizeSafe(fileName);
    TimestampSafe(now);
    if includeTimestamp {
      assert IsSafeName("_" + FormatTimestamp(now)) by {
        var u := "_" + FormatTimestamp(now);
        forall i | 0 <= i < |u| ensures IsSafeChar(u[i]) {
          if i > 0 { assert u[i] == FormatTimestamp(now)[i - 1]; }
        }
      }
    }
    if ValidDateTime(now) {
      TimestampLayout(now);
    }
  }

  /** A file name has no '/', so the path's only separators come from the directory. */
  lemma FileNameHasNoSeparator(fileName: string, includeTimestamp: bool, now: DateTime)
    ensures var name := ScreenshotFileName(fileName, includeTimestamp, now);
      forall i :: 0 <= i < |name| ==> name[i] != '/'
  {
    var name := ScreenshotFileName(fileName, includeTimestamp, now);
    FileNameShape(fileName, includeTimestamp, now);
    forall i | 0 <= i < |name| ensures name[i] != '/' {
      if i < |name| - 4 {
        assert name[i] == name[..|name| - 4][i];
      } else {
        assert name[i] == EXTENSION[i - (|name| - 4)];
      }
    }
  }

  /*
   * Capturing.
   */

  /** The I/O a capture attempts, in order. */
  datatype FileOp =
    | TakeScreenshot            // getScreenshotAs(OutputType.FILE)
    | MakeParentDirs(path: string) // destinationFile.getParentFile().mkdirs()
    | CopyTo(path: string)      // FileUtils.copyFile(screenshotFile, destinationFile)

  /** How the environment answers: the remote screenshot and the copy. */
  datatype ScreenshotIo = ScreenshotIo(screenshotTaken: bool, copySucceeds: bool)

  /** The uncaught exceptions: only IOException is caught. */
  datatype CaptureError = WebDriverException | NullPointerException

  /** The call returns a path or null, or throws. */
  datatype Capture = Returned(path: Option<string>) | Threw(error: CaptureError)

  datatype CaptureRun = CaptureRun(result: Capture, ops: seq<FileOp>)

  /** new File(path).getParentFile() is not null: the path has a separator. */
  predicate HasParent(path: string) {
    '/' in path
  }

  /**
   * The try block once the path is known: take the screenshot (a
   * WebDriverException propagates), create the parent directories (a null
   * parent is a NullPointerException), copy (an IOException gives null).
   */
  function Save(path: string, io: ScreenshotIo): (run: CaptureRun)
    ensures run.result == Returned(Some(path)) <==> io.screenshotTaken && HasParent(path) && io.copySucceeds
    ensures run.result == Returned(None) <==> io.screenshotTaken && HasParent(path) && !io.copySucceeds
    ensures run.result.Threw? && run.result.error == WebDriverException <==> !io.screenshotTaken
    ensures run.result.Threw? && run.result.error == NullPointerException <==> io.screenshotTaken && !HasParent(path)
    ensures |run.ops| > 0 && run.ops[0] == TakeScreenshot
  {
    if !io.screenshotTaken then CaptureRun(Threw(WebDriverException), [TakeScreenshot])
    else if !HasParent(path) then CaptureRun(Threw(NullPointerException), [TakeScreenshot])
    else
      var ops := [TakeScreenshot, MakeParentDirs(path), CopyTo(path)];
      if io.copySucceeds then CaptureRun(Returned(Some(path)), ops) else CaptureRun(Returned(None), ops)
  }

  /** captureScreenshot(scenarioName); driverPresent is DriverManager.getDriver() != null. */
  function CaptureScenario(driverPresent: bool, dir: string, scenarioName: string, now: DateTime, io: ScreenshotIo)
    : (run: CaptureRun)
    ensures !driverPresent ==> run == CaptureRun(Returned(None), [])
    ensures driverPresent ==> run.ops != []
  {
    if !driverPresent then CaptureRun(Returned(None), [])
    else Save(dir + ScenarioFileName(scenarioName, now), io)
  }

  /** captureScreenshot(fileName, includeTimestamp). */
  function CaptureNamed(driverPresent: bool, dir: string, fileName: string, includeTimestamp: bool, now: DateTime,
                        io: ScreenshotIo): (run: CaptureRun)
    ensures !driverPresent ==> run == CaptureRun(Returned(None), [])
    ensures driverPresent ==> run.ops != []
  {
    if !driverPresent then CaptureRun(Returned(None), [])
    else Save(dir + ScreenshotFileName(fileName, includeTimestamp, now), io)
  }

  /**
   * With a driver, the two-argument capture returns its path exactly when the
   * screenshot is taken, the directory holds a separator and the copy
   * succeeds; a failed copy gives null; a directory without a separator
   * throws NullPointerException.
   */
  lemma CaptureNamedOutcomes(dir: string, fileName: string, includeTimestamp: bool, now: DateTime, io: ScreenshotIo)
    ensures var run := CaptureNamed(true, dir, fileName, includeTimestamp, now, io);
      && (run.result.Returned? && run.result.path.Some? <==> io.screenshotTaken && '/' in dir && io.copySucceeds)
      && (run.result.Returned? && run.result.path.Some? ==>
            run.result.path.value == dir + ScreenshotFileName(fileName, includeTimestamp, now))
      && (io.screenshotTaken && '/' in dir && !io.copySucceeds ==> run.result == Returned(None))
      && (io.screenshotTaken && '/' !in dir ==> run.result == Threw(NullPointerException))
      && (!io.screenshotTaken ==> run.result == Threw(WebDriverException))
  {
    var name := ScreenshotFileName(fileName, includeTimestamp, now);
    FileNameHasNoSeparator(fileName, includeTimestamp, now);
    assert HasParent(dir + name) <==> '/' in dir by {
      if '/' in dir {
        var i :| 0 <= i < |dir| && dir[i] == '/';
        assert (dir + name)[i] == '/';
      } else {
        forall i | 0 <= i < |dir + name| ensures (dir + name)[i] != '/' {
          if i < |dir| {
            assert (dir + name)[i] == dir[i];
          } else {
            assert (dir + name)[i] == name[i - |dir|];
          }
        }
      }
    }
  }

  /** The one-argument capture behaves as the two-argument one with the timestamp included. */
  lemma CaptureScenarioIsNamed(driverPresent: bool, dir: string, scenarioName: string, now: DateTime, io: ScreenshotIo)
    ensures CaptureScenario(driverPresent, dir, scenarioName, now, io) == CaptureNamed(driverPresent, dir, scenarioName, true, now, io)
  {
    ScenarioNameIsTimestamped(scenarioName, now);
  }
}
