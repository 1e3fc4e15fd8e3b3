/**
 * The editor's command line (Application::parseArgs): "-h"/"--help" ends
 * start-up with a user exception, "--lang" followed by a value forces the
 * language, and any other argument names the track file to open; argv[0]
 * is skipped. Loading translations and printing the help text are not part
 * of this model.
 */
module EditorArgs {
  import opened Wrappers

  const HelpMessage: string := "Exit due to help."

  /** Which bound protects the read of the value after "--lang". */
  datatype Guard =
    | AsWritten   // i + i < argc
    | Intended    // i + 1 < argc

  predicate LangGuard(g: Guard, i: nat, argc: nat) {
    match g
    case AsWritten => i + i < argc
    case Intended => i + 1 < argc
  }

  predicate IsHelp(a: string) {
    a == "-h" || a == "--help"
  }

  /** An argument that is neither a help request nor "--lang". */
  predicate Plain(a: string) {
    !IsHelp(a) && a != "--lang"
  }

  /** The variables of the scan: the language, the track file and whether help ended it. */
  datatype ScanState = ScanState(lang: string, trackFile: string, help: bool)

  /** The scan from position i on, with the language and track file found so far. */
  function ScanFrom(args: seq<string>, i: nat, lang: string, trackFile: string, g: Guard): (s: ScanState)
    requires i >= 1
    ensures s.trackFile != trackFile ==> exists k :: i <= k < |args| && s.trackFile == args[k]
    decreases |args| - i
  {
    if i >= |args| then ScanState(lang, trackFile, false)
    else if IsHelp(args[i]) then ScanState(lang, trackFile, true)
    else if args[i] == "--lang" && LangGuard(g, i, |args|) then
      ScanFrom(args, i + 2, args[i + 1], trackFile, g)
    else
      ScanFrom(args, i + 1, lang, args[i], g)
  }

  /** parseArgs' scan: from argv[1], no language, and the track file held before. */
  function Scan(args: seq<string>, trackFile: string, g: Guard): ScanState {
    ScanFrom(args, 1, "", trackFile, g)
  }

  /**
   * The loop of parseArgs, with the source's guard. It stops at the first
   * help argument it reaches; the track file it has set by then stays set.
   */
  method ScanArgs(args: seq<string>, trackFile0: string) returns (lang: string, trackFile: string, help: bool)
    ensures ScanState(lang, trackFile, help) == Scan(args, trackFile0, AsWritten)
  {
    lang := "";
    trackFile := trackFile0;
    var i := 1;
    while i < |args|
      invariant i >= 1
      invariant ScanFrom(args, i, lang, trackFile, AsWritten) == Scan(args, trackFile0, AsWritten)
      decreases |args| - i
    {
      if args[i] == "-h" || args[i] == "--help" {
        return lang, trackFile, true;
      } else if args[i] == "--lang" && i + i < |args| {
        i := i + 1;
        lang := args[i];
      } else {
        trackFile := args[i];
      }
      i := i + 1;
    }
    help := false;
  }

  /** For every position after argv[0] the source's guard implies the read after "--lang" is in bounds. */
  lemma GuardInBounds(i: nat, argc: nat)
    requires i >= 1 && LangGuard(AsWritten, i, argc)
    ensures i + 1 < argc && LangGuard(Intended, i, argc)
  {
  }

  /** argv[0] is never examined. */
  lemma ProgramNameIgnored(args: seq<string>, name: string, trackFile: string, g: Guard)
    requires |args| >= 1
    ensures Scan([name] + args[1..], trackFile, g) == Scan(args, trackFile, g)
  {
    ScanSameSuffix([name] + args[1..], args, 1, "", trackFile, g);
  }

  /** The scan from i depends only on the arguments from i on. */
  lemma {:induction false} ScanSameSuffix(a: seq<string>, b: seq<string>, i: nat, lang: string,
                                          trackFile: string, g: Guard)
    requires i >= 1 && |a| == |b| && i <= |a| && a[i..] == b[i..]
    ensures ScanFrom(a, i, lang, trackFile, g) == ScanFrom(b, i, lang, trackFile, g)
    decreases |a| - i
  {
    if i < |a| {
      assert a[i] == a[i..][0] == b[i..][0] == b[i];
      if !IsHelp(a[i]) {
        if a[i] == "--lang" && LangGuard(g, i, |a|) {
          assert a[i + 1] == a[i..][1] == b[i..][1] == b[i + 1];
          if i + 2 <= |a| {
            assert a[i + 2..] == a[i..][2..];
            assert b[i + 2..] == b[i..][2..];
            ScanSameSuffix(a, b, i + 2, a[i + 1], trackFile, g);
          }
        } else {
          assert a[i + 1..] == a[i..][1..];
          assert b[i + 1..] == b[i..][1..];
          ScanSameSuffix(a, b, i + 1, lang, a[i], g);
        }
      }
    }
  }

  /**
   * A help argument reached after a run of plain arguments ends the scan
   * with the exception; the track file keeps the last plain argument.
   */
  lemma HelpThrows(args: seq<string>, j: nat, trackFile: string, g: Guard)
    requires 1 <= j < |args| && IsHelp(args[j])
    requires forall k :: 1 <= k < j ==> Plain(args[k])
    ensures Scan(args, trackFile, g) == ScanState("", if j > 1 then args[j - 1] else trackFile, true)
  {
    PlainRun(args, 1, j, "", trackFile, g);
  }

  /** Without any help argument after argv[0] the scan never throws. */
  lemma {:induction false} NoHelpNoThrow(args: seq<string>, i: nat, lang: string, trackFile: string, g: Guard)
    requires i >= 1
    requires forall k :: i <= k < |args| ==> !IsHelp(args[k])
    ensures !ScanFrom(args, i, lang, trackFile, g).help
    decreases |args| - i
  {
    if i < |args| {
      if args[i] == "--lang" && LangGuard(g, i, |args|) {
        NoHelpNoThrow(args, i + 2, args[i + 1], trackFile, g);
      } else {
        NoHelpNoThrow(args, i + 1, lang, args[i], g);
      }
    }
  }

  /** A run of plain arguments sets the track file to the last of them and keeps the language. */
  lemma {:induction false} PlainRun(args: seq<string>, i: nat, j: nat, lang: string, trackFile: string, g: Guard)
    requires 1 <= i <= j <= |args|
    requires forall k :: i <= k < j ==> Plain(args[k])
    ensures ScanFrom(args, i, lang, trackFile, g) ==
            ScanFrom(args, j, lang, if j > i then args[j - 1] else trackFile, g)
    decreases j - i
  {
    if i < j {
      PlainRun(args, i + 1, j, lang, args[i], g);
    }
  }

  /**
   * Without help or "--lang" the last argument names the track file and the
   * language stays empty; with no arguments the track file is kept.
   */
  lemma LastArgumentWins(args: seq<string>, trackFile: string, g: Guard)
    requires |args| >= 1
    requires forall k :: 1 <= k < |args| ==> Plain(args[k])
    ensures Scan(args, trackFile, g) ==
            ScanState("", if |args| >= 2 then args[|args| - 1] else trackFile, false)
  {
    PlainRun(args, 1, |args|, "", trackFile, g);
  }

  /**
   * With the intended guard, "--lang" and a value after any plain
   * arguments set the language to the value, and the value is never taken
   * as the track file.
   */
  lemma IntendedLangConsumed(prefix: seq<string>, value: string, trackFile: string)
    requires |prefix| >= 1
    requires forall k :: 1 <= k < |prefix| ==> Plain(prefix[k])
    ensures var args := prefix + ["--lang", value];
            Scan(args, trackFile, Intended) ==
            ScanState(value, if |prefix| >= 2 then prefix[|prefix| - 1] else trackFile, false)
  {
    var args := prefix + ["--lang", value];
    PlainRun(args, 1, |prefix|, "", trackFile, Intended);
  }

  /**
   * With the source's guard, "--lang" and a value after one or more plain
   * arguments are both taken as track files: a value other than a help
   * argument ends up as the track file and the language stays empty.
   */
  lemma AsWrittenLangDropped(prefix: seq<string>, value: string, trackFile: string)
    requires |prefix| >= 2 && !IsHelp(value)
    requires forall k :: 1 <= k < |prefix| ==> Plain(prefix[k])
    ensures var args := prefix + ["--lang", value];
            Scan(args, trackFile, AsWritten) == ScanState("", value, false)
  {
    var args := prefix + ["--lang", value];
    var n := |prefix|;
    PlainRun(args, 1, n, "", trackFile, AsWritten);
    assert args[n] == "--lang" && args[n + 1] == value;
    assert !LangGuard(AsWritten, n, |args|);
    assert !LangGuard(AsWritten, n + 1, |args|);
    assert ScanFrom(args, n, "", args[n - 1], AsWritten) == ScanFrom(args, n + 1, "", "--lang", AsWritten);
    assert ScanFrom(args, n + 1, "", "--lang", AsWritten) == ScanFrom(args, n + 2, "", value, AsWritten);
  }

  /** The concrete command line `dustrac-editor track.trk --lang fi` under both guards. */
  lemma TrackThenLang()
    ensures Scan(["dustrac-editor", "track.trk", "--lang", "fi"], "", AsWritten) == ScanState("", "fi", false)
    ensures Scan(["dustrac-editor", "track.trk", "--lang", "fi"], "", Intended) == ScanState("fi", "track.trk", false)
  {
    AsWrittenLangDropped(["dustrac-editor", "track.trk"], "fi", "");
    IntendedLangConsumed(["dustrac-editor", "track.trk"], "fi", "");
    assert ["dustrac-editor", "track.trk"] + ["--lang", "fi"] == ["dustrac-editor", "track.trk", "--lang", "fi"];
  }

  class Application {
    var trackFile: string

    constructor ()
      ensures trackFile == ""
    {
      trackFile := "";
    }

    /**
     * parseArgs: the language to load translations for, or the user
     * exception raised by a help argument. The track file is updated as
     * the scan goes, also before a help argument.
     */
    method ParseArgs(args: seq<string>) returns (r: Result<string, string>)
      modifies this
      ensures var s := Scan(args, old(trackFile), AsWritten);
              trackFile == s.trackFile &&
              r == if s.help then Failure(HelpMessage) else Success(s.lang)
    {
      var lang, file, help := ScanArgs(args, trackFile);
      trackFile := file;
      if help {
        return Failure(HelpMessage);
      }
      return Success(lang);
    }
  }
}
