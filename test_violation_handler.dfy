/**
 * The violation handler of the integration tests: it blames a stack frame
 * outside the framework and the test utilities (the first such frame for
 * LOCAL attribution, the second for CALLER) and formats one line
 *   [VIOLATION] <file>:<line> (<checker>) <message>
 * whose printing is not modelled. The stack walk is a sequence of frames,
 * innermost first.
 */
module TestUtils {
  import opened Wrappers
  import opened JavaString
  import opened Runtime

  /** A stack frame: its declaring class (binary name), its source file (None when unknown) and its line. */
  datatype Frame = Frame(className: string, fileName: Option<string>, lineNumber: int)

  const FRAMEWORK_PREFIX := "io.github.eisop.runtimeframework"
  const TEST_UTILS_PREFIX := "io.github.eisop.testutils"

  /** A frame of the framework or of the test utilities, which is never blamed. */
  predicate FrameworkFrame(f: Frame) {
    StartsWith(f.className, FRAMEWORK_PREFIX) || StartsWith(f.className, TEST_UTILS_PREFIX)
  }

  /** The two filters of the walk: the frames left, in stack order. */
  function Remaining(frames: seq<Frame>): (r: seq<Frame>)
    ensures |r| <= |frames|
    ensures forall f :: f in r ==> f in frames && !FrameworkFrame(f)
    ensures forall f :: f in frames && !FrameworkFrame(f) ==> f in r
  {
    if frames == [] then []
    else (if FrameworkFrame(frames[0]) then [] else [frames[0]]) + Remaining(frames[1..])
  }

  /** How many remaining frames the walk skips: one for CALLER, none for LOCAL. */
  function SkipCount(attribution: AttributionKind): nat {
    if attribution == Caller then 1 else 0
  }

  /** findCaller: the first remaining frame after the skipped ones, if there is one. */
  function FindCaller(frames: seq<Frame>, attribution: AttributionKind): (r: Option<Frame>)
    ensures r.Some? ==> r.value in frames && !FrameworkFrame(r.value)
    ensures r.None? <==> |Remaining(frames)| <= SkipCount(attribution)
  {
    var rest := Remaining(frames);
    if |rest| > SkipCount(attribution) then Some(rest[SkipCount(attribution)]) else None
  }

  /** String concatenation of a possibly-null file name. */
  function FileText(fileName: Option<string>): string {
    match fileName
    case None => "null"
    case Some(s) => s
  }

  /** The location of a blamed frame, "file:line", or Unknown:0 when no frame is blamed. */
  function Location(caller: Option<Frame>): (r: string)
    ensures caller.None? ==> r == "Unknown:0"
    ensures caller.Some? ==> r == FileText(caller.value.fileName) + ":" + IntToString(caller.value.lineNumber)
  {
    match caller
    case None => "Unknown:0"
    case Some(f) => FileText(f.fileName) + ":" + IntToString(f.lineNumber)
  }

  /** handleViolation: the line it prints for a violation seen with this stack. */
  function ViolationLine(frames: seq<Frame>, checkerName: string, message: string, attribution: AttributionKind): (line: string)
    ensures StartsWith(line, "[VIOLATION] ")
    ensures EndsWith(line, " (" + checkerName + ") " + message)
    ensures |line| == 12 + |Location(FindCaller(frames, attribution))| + |" (" + checkerName + ") " + message|
    ensures line[12..|line| - |" (" + checkerName + ") " + message|] == Location(FindCaller(frames, attribution))
  {
    var location := Location(FindCaller(frames, attribution));
    var suffix := " (" + checkerName + ") " + message;
    var line := "[VIOLATION] " + location + " (" + checkerName + ") " + message;
    assert line[..12] == "[VIOLATION] ";
    assert line == ("[VIOLATION] " + location) + suffix;
    assert line[12..|line| - |suffix|] == location;
    line
  }

  /** Leading framework frames do not change what remains. */
  lemma {:induction false} RemainingSkipsFramework(frames: seq<Frame>, i: nat)
    requires i <= |frames| && forall j :: 0 <= j < i ==> FrameworkFrame(frames[j])
    ensures Remaining(frames) == Remaining(frames[i..])
  {
    if i > 0 {
      assert FrameworkFrame(frames[0]);
      assert Remaining(frames) == Remaining(frames[1..]);
      RemainingSkipsFramework(frames[1..], i - 1);
      assert frames[1..][i - 1..] == frames[i..];
    }
  }

  /** An application frame heads what remains of the stack from it on. */
  lemma {:induction false} RemainingFrom(frames: seq<Frame>, i: nat)
    requires i < |frames| && !FrameworkFrame(frames[i])
    ensures Remaining(frames[i..]) == [frames[i]] + Remaining(frames[i + 1..])
  {
    assert frames[i..][0] == frames[i];
    assert frames[i..][1..] == frames[i + 1..];
  }

  /** The first application frame heads what remains of the whole stack. */
  lemma {:induction false} RemainingAtFirst(frames: seq<Frame>, i: nat)
    requires i < |frames| && !FrameworkFrame(frames[i])
    requires forall j :: 0 <= j < i ==> FrameworkFrame(frames[j])
    ensures Remaining(frames) == [frames[i]] + Remaining(frames[i + 1..])
  {
    RemainingSkipsFramework(frames, i);
    RemainingFrom(frames, i);
  }

  /** LOCAL blames the innermost frame outside the framework. */
  lemma {:induction false} LocalBlamesFirstApplicationFrame(frames: seq<Frame>, i: nat)
    requires i < |frames| && !FrameworkFrame(frames[i])
    requires forall j :: 0 <= j < i ==> FrameworkFrame(frames[j])
    ensures FindCaller(frames, Local) == Some(frames[i])
  {
    RemainingAtFirst(frames, i);
  }

  /** CALLER blames the second frame outside the framework: the caller of the method that holds the check. */
  lemma {:induction false} CallerBlamesSecondApplicationFrame(frames: seq<Frame>, i: nat, k: nat)
    requires i < k < |frames| && !FrameworkFrame(frames[i]) && !FrameworkFrame(frames[k])
    requires forall j :: 0 <= j < k && j != i ==> FrameworkFrame(frames[j])
    ensures FindCaller(frames, Caller) == Some(frames[k])
  {
    RemainingAtFirst(frames, i);
    NextApplicationFrame(frames, i, k);
    SecondOfRemaining(frames, frames[i], frames[k], Remaining(frames[k + 1..]));
  }

  /** After one application frame, the next one heads what remains of the rest of the stack. */
  lemma {:induction false} NextApplicationFrame(frames: seq<Frame>, i: nat, k: nat)
    requires i < k < |frames| && !FrameworkFrame(frames[k])
    requires forall j :: i < j < k ==> FrameworkFrame(frames[j])
    ensures Remaining(frames[i + 1..]) == [frames[k]] + Remaining(frames[k + 1..])
  {
    var tail := frames[i + 1..];
    var gap := k - (i + 1);
    forall j | 0 <= j < gap
      ensures FrameworkFrame(tail[j])
    {
      assert tail[j] == frames[i + 1 + j];
    }
    assert tail[gap] == frames[k];
    RemainingAtFirst(tail, gap);
    assert tail[gap + 1..] == frames[k + 1..];
  }

  /** When what remains starts with two given frames, CALLER blames the second. */
  lemma {:induction false} SecondOfRemaining(frames: seq<Frame>, first: Frame, second: Frame, rest: seq<Frame>)
    requires Remaining(frames) == [first] + ([second] + rest)
    ensures FindCaller(frames, Caller) == Some(second)
  {
    assert Remaining(frames)[1] == second;
  }

  /** With at most one application frame on the stack, CALLER blames nobody and the line says Unknown:0. */
  lemma {:induction false} CallerWithoutCallerIsUnknown(frames: seq<Frame>, i: nat, checkerName: string, message: string)
    requires i <= |frames|
    requires forall j :: 0 <= j < |frames| && j != i ==> FrameworkFrame(frames[j])
    ensures FindCaller(frames, Caller).None?
    ensures ViolationLine(frames, checkerName, message, Caller) == "[VIOLATION] Unknown:0 (" + checkerName + ") " + message
  {
    if i < |frames| && !FrameworkFrame(frames[i]) {
      RemainingSkipsFramework(frames, i);
      RemainingFrom(frames, i);
      AllFrameworkLeavesNothing(frames[i + 1..]);
    } else {
      AllFrameworkLeavesNothing(frames);
    }
  }

  lemma {:induction false} AllFrameworkLeavesNothing(frames: seq<Frame>)
    requires forall j :: 0 <= j < |frames| ==> FrameworkFrame(frames[j])
    ensures Remaining(frames) == []
  {
    RemainingSkipsFramework(frames, |frames|);
    assert frames[|frames|..] == [];
  }
}
