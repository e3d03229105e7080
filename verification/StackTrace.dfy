/** cleanStackTrace (process.go:529-580): drop the frames of the library and of the runtime. */
module StackTrace {

  // ---- strings.Split, strings.Join and strings.TrimRight on line breaks ----

  function Split(s: string): (lines: seq<string>)
    ensures lines != []
  {
    if s == [] then [""]
    else
      var rest := Split(s[1..]);
      if s[0] == '\n' then [""] + rest else [[s[0]] + rest[0]] + rest[1..]
  }

  function Join(lines: seq<string>): string {
    if lines == [] then ""
    else if |lines| == 1 then lines[0]
    else lines[0] + "\n" + Join(lines[1..])
  }

  function TrimRight(s: string): string {
    if s != [] && s[|s| - 1] == '\n' then TrimRight(s[..|s| - 1]) else s
  }

  const LIBRARY_PREFIXES: seq<string> :=
    ["runtime/debug.Stack", "panic(", "github.com/mathiashsteffensen/xwork/v2.(*Processor).",
     "github.com/alitto/pond.", "runtime.goexit"]

  predicate IsLibraryStackFrame(funcLine: string) {
    exists i :: 0 <= i < |LIBRARY_PREFIXES| && LIBRARY_PREFIXES[i] <= funcLine
  }

  /** The frames that are dropped: of the panic machinery, the worker pool, the processor and the runtime's exit. */
  lemma LibraryFrames(funcLine: string)
    ensures IsLibraryStackFrame(funcLine) <==>
      || "runtime/debug.Stack" <= funcLine || "panic(" <= funcLine || "runtime.goexit" <= funcLine
      || "github.com/mathiashsteffensen/xwork/v2.(*Processor)." <= funcLine || "github.com/alitto/pond." <= funcLine
  {
    assert |LIBRARY_PREFIXES| == 5;
    assert LIBRARY_PREFIXES[0] == "runtime/debug.Stack" && LIBRARY_PREFIXES[1] == "panic(";
    assert LIBRARY_PREFIXES[2] == "github.com/mathiashsteffensen/xwork/v2.(*Processor).";
    assert LIBRARY_PREFIXES[3] == "github.com/alitto/pond." && LIBRARY_PREFIXES[4] == "runtime.goexit";
  }

  // ---- what cleaning means ----

  /** A function line and its file line, which is empty when the trace ends early. */
  datatype Frame = Frame(func: string, file: string)

  function Frames(lines: seq<string>): seq<Frame> {
    if lines == [] then []
    else if |lines| == 1 then [Frame(lines[0], "")]
    else [Frame(lines[0], lines[1])] + Frames(lines[2..])
  }

  function UserFrames(frames: seq<Frame>): seq<Frame> {
    if frames == [] then []
    else (if IsLibraryStackFrame(frames[0].func) then [] else [frames[0]]) + UserFrames(frames[1..])
  }

  function Lines(frames: seq<Frame>): seq<string> {
    if frames == [] then []
    else [frames[0].func] + (if frames[0].file != "" then [frames[0].file] else []) + Lines(frames[1..])
  }

  function CleanedFrom(header: string, frames: seq<Frame>): string {
    if UserFrames(frames) == [] then "" else Join([header] + Lines(UserFrames(frames)))
  }

  function Cleaned(stack: string): string {
    if stack == "" then "" else
      var lines := Split(TrimRight(stack));
      CleanedFrom(lines[0], Frames(lines[1..]))
  }

  /** The lines behind the header that survive. */
  function Kept(lines: seq<string>): seq<string> {
    Lines(UserFrames(Frames(lines)))
  }

  // ---- the loop ----

  /** What the frames from line i on contribute. */
  function Rest(lines: seq<string>, i: nat): seq<string> {
    if i < |lines| then Kept(lines[i..]) else []
  }

  function LinesOf(f: Frame): seq<string> {
    if IsLibraryStackFrame(f.func) then [] else [f.func] + if f.file != "" then [f.file] else []
  }

  lemma UserLinesStep(f: Frame, frames: seq<Frame>)
    ensures Lines(UserFrames([f] + frames)) == LinesOf(f) + Lines(UserFrames(frames))
  {
    hide IsLibraryStackFrame;
    assert ([f] + frames)[1..] == frames;
    var tail := UserFrames(frames);
    if IsLibraryStackFrame(f.func) {
      assert UserFrames([f] + frames) == tail;
    } else {
      assert UserFrames([f] + frames) == [f] + tail;
      assert ([f] + tail)[1..] == tail;
    }
  }

  lemma RestStep(lines: seq<string>, i: nat)
    requires i < |lines|
    ensures Rest(lines, i) == LinesOf(Frame(lines[i], if i + 1 < |lines| then lines[i + 1] else "")) + Rest(lines, i + 2)
  {
    var here := lines[i..];
    if i + 1 < |lines| {
      assert here[2..] == lines[i + 2..];
      UserLinesStep(Frame(lines[i], lines[i + 1]), Frames(lines[i + 2..]));
    } else {
      UserLinesStep(Frame(lines[i], ""), []);
      assert [Frame(lines[i], "")] + [] == [Frame(lines[i], "")];
    }
  }

  lemma RestEnds(lines: seq<string>, i: nat)
    requires i >= |lines|
    ensures Rest(lines, i) == []
  {
  }

  lemma {:induction false} CleanedByRest(stack: string)
    requires stack != ""
    ensures var lines := Split(TrimRight(stack));
      var filtered := [lines[0]] + Rest(lines, 1);
      Cleaned(stack) == if |filtered| == 1 then "" else Join(filtered)
  {
    var lines := Split(TrimRight(stack));
    if |lines| == 1 {
      assert lines[1..] == [];
    }
  }

  method CleanStackTrace(stack: string) returns (r: string)
    ensures r == Cleaned(stack)
  {
    if |stack| == 0 {
      return "";
    }
    hide IsLibraryStackFrame, Rest, Cleaned, TrimRight, Join;
    var lines := Split(TrimRight(stack));
    var filtered := [lines[0]];
    var i := 1;
    while i < |lines|
      invariant i >= 1 && |filtered| >= 1
      invariant filtered + Rest(lines, i) == [lines[0]] + Rest(lines, 1)
    {
      ghost var done := filtered;
      var funcLine := lines[i];
      var fileLine := "";
      if i + 1 < |lines| {
        fileLine := lines[i + 1];
      }
      RestStep(lines, i);
      Associative(done, LinesOf(Frame(funcLine, fileLine)), Rest(lines, i + 2));
      i := i + 2;
      if IsLibraryStackFrame(funcLine) {
        assert done + [] == done;
        continue;
      }
      filtered := filtered + [funcLine];
      if fileLine != "" {
        Associative(done, [funcLine], [fileLine]);
        filtered := filtered + [fileLine];
      }
    }
    RestEnds(lines, i);
    assert filtered == filtered + Rest(lines, i);
    CleanedByRest(stack);
    if |filtered| == 1 {
      return "";
    }
    r := Join(filtered);
  }

  // ---- exactly the frames of the user, in order ----

  lemma UserFramesOfFirst(f: Frame, rest: seq<Frame>)
    ensures UserFrames([f] + rest) == (if IsLibraryStackFrame(f.func) then [] else [f]) + UserFrames(rest)
  {
    hide IsLibraryStackFrame;
    assert ([f] + rest)[0] == f && ([f] + rest)[1..] == rest;
  }

  lemma Associative<T>(a: seq<T>, b: seq<T>, c: seq<T>)
    ensures (a + b) + c == a + (b + c)
  {
  }

  /** Cleaning two parts of a trace one after the other is cleaning the whole: the order is kept. */
  lemma {:induction false} UserFramesKeepOrder(a: seq<Frame>, b: seq<Frame>)
    ensures UserFrames(a + b) == UserFrames(a) + UserFrames(b)
  {
    hide IsLibraryStackFrame;
    if a == [] {
      assert a + b == b;
    } else {
      var f, rest := a[0], a[1..];
      assert a == [f] + rest;
      Associative([f], rest, b);
      UserFramesOfFirst(f, rest + b);
      UserFramesOfFirst(f, rest);
      UserFramesKeepOrder(rest, b);
      Associative(if IsLibraryStackFrame(f.func) then [] else [f], UserFrames(rest), UserFrames(b));
    }
  }

  /** Every frame of the user is kept as often as it occurs, and no frame of the library is. */
  lemma {:induction false} UserFramesAreExact(frames: seq<Frame>, f: Frame)
    ensures multiset(UserFrames(frames))[f] == if IsLibraryStackFrame(f.func) then 0 else multiset(frames)[f]
  {
    hide IsLibraryStackFrame;
    if frames != [] {
      UserFramesAreExact(frames[1..], f);
      assert frames == [frames[0]] + frames[1..];
    }
  }

  // ---- cleaning a clean trace changes nothing ----

  predicate OneLine(s: string) {
    '\n' !in s
  }

  lemma {:induction false} SplitIsOneLine(s: string)
    ensures forall i :: 0 <= i < |Split(s)| ==> OneLine(Split(s)[i])
  {
    if s != [] { SplitIsOneLine(s[1..]); }
  }

  lemma {:induction false} SplitLine(line: string)
    requires OneLine(line)
    ensures Split(line) == [line]
  {
    if line != "" {
      SplitLine(line[1..]);
      assert line == [line[0]] + line[1..];
    }
  }

  lemma {:induction false} SplitAtBreak(line: string, rest: string)
    requires OneLine(line)
    ensures Split(line + "\n" + rest) == [line] + Split(rest)
  {
    var s := line + "\n" + rest;
    if line == "" {
      assert s[1..] == rest;
    } else {
      SplitAtBreak(line[1..], rest);
      assert s[1..] == line[1..] + "\n" + rest;
      assert line == [line[0]] + line[1..];
    }
  }

  /** Splitting what was joined gives the lines back. */
  lemma {:induction false} SplitJoin(lines: seq<string>)
    requires lines != [] && forall i :: 0 <= i < |lines| ==> OneLine(lines[i])
    ensures Split(Join(lines)) == lines
  {
    if |lines| == 1 {
      SplitLine(lines[0]);
    } else {
      SplitAtBreak(lines[0], Join(lines[1..]));
      SplitJoin(lines[1..]);
    }
  }

  lemma {:induction false} JoinEndsInLastLine(lines: seq<string>)
    requires lines != [] && lines[|lines| - 1] != ""
    ensures var last := lines[|lines| - 1];
      Join(lines) != "" && Join(lines)[|Join(lines)| - 1] == last[|last| - 1]
  {
    if |lines| > 1 {
      JoinEndsInLastLine(lines[1..]);
    }
  }

  /** Joining the lines of a text gives the text back. */
  lemma {:induction false} SplitIsJoined(s: string)
    ensures Join(Split(s)) == s
  {
    if s != "" {
      SplitIsJoined(s[1..]);
      var rest := Split(s[1..]);
      assert s == [s[0]] + s[1..];
      if s[0] == '\n' {
        assert ([""] + rest)[1..] == rest;
      } else {
        var lines := [[s[0]] + rest[0]] + rest[1..];
        assert lines[1..] == rest[1..];
      }
    }
  }

  // ---- when cleaning a second time changes nothing ----

  /** Read as function lines and file lines in turn, no line is of the library and no file line is empty. */
  predicate InPlace(lines: seq<string>) {
    forall i :: 0 <= i < |lines| ==> if i % 2 == 0 then !IsLibraryStackFrame(lines[i]) else lines[i] != ""
  }

  /** And the last line is not trimmed off. */
  predicate Stable(lines: seq<string>) {
    InPlace(lines) && (lines != [] ==> lines[|lines| - 1] != "")
  }

  lemma KeptStep(lines: seq<string>)
    requires lines != []
    ensures Kept(lines) == LinesOf(Frame(lines[0], if |lines| > 1 then lines[1] else ""))
                           + if |lines| > 1 then Kept(lines[2..]) else []
  {
    RestStep(lines, 0);
    assert lines[0..] == lines;
  }

  lemma {:induction false} KeptAreLines(lines: seq<string>)
    ensures |Kept(lines)| <= |lines| && forall l :: l in Kept(lines) ==> l in lines
    decreases |lines|
  {
    hide IsLibraryStackFrame, Kept;
    if lines == [] {
      NothingKeptIff(lines);
    } else {
      KeptStep(lines);
      if |lines| > 1 { KeptAreLines(lines[2..]); }
    }
  }

  lemma InPlaceStep(func: string, file: string, rest: seq<string>)
    ensures InPlace([func, file] + rest) <==> !IsLibraryStackFrame(func) && file != "" && InPlace(rest)
  {
    hide IsLibraryStackFrame;
    var all := [func, file] + rest;
    assert all[0] == func && all[1] == file;
    assert forall i :: 0 <= i < |rest| ==> all[i + 2] == rest[i] && (i + 2) % 2 == i % 2;
    forall i | 0 <= i < |all| && !IsLibraryStackFrame(func) && file != "" && InPlace(rest)
      ensures if i % 2 == 0 then !IsLibraryStackFrame(all[i]) else all[i] != ""
    {
      if i >= 2 { assert all[i] == rest[i - 2]; }
    }
  }

  lemma SameBehind(func: string, file: string, a: seq<string>, b: seq<string>)
    ensures [func, file] + a == [func, file] + b <==> a == b
  {
    assert ([func, file] + a)[2..] == a && ([func, file] + b)[2..] == b;
  }

  /** Nothing is dropped exactly when every line is in place. */
  lemma {:induction false} KeepsAllIff(lines: seq<string>)
    ensures Kept(lines) == lines <==> InPlace(lines)
    decreases |lines|
  {
    hide IsLibraryStackFrame, Kept;
    if lines == [] {
      NothingKeptIff(lines);
    } else if |lines| == 1 {
      KeptStep(lines);
    } else {
      var func, file, rest := lines[0], lines[1], lines[2..];
      assert lines == [func, file] + rest;
      KeptStep(lines);
      KeptAreLines(rest);
      KeepsAllIff(rest);
      InPlaceStep(func, file, rest);
      SameBehind(func, file, Kept(rest), rest);
    }
  }

  lemma NothingKeptIff(lines: seq<string>)
    ensures Kept(lines) == [] <==> UserFrames(Frames(lines)) == []
  {
  }

  lemma {:induction false} OneMoreLine(s: string)
    ensures |Split(s + "\n")| == |Split(s)| + 1
  {
    if s == "" {
      assert s + "\n" == "\n" && Split("\n"[1..]) == [""];
    } else {
      OneMoreLine(s[1..]);
      assert (s + "\n")[1..] == s[1..] + "\n";
    }
  }

  lemma {:induction false} TrimmingDropsLines(s: string)
    ensures |Split(TrimRight(s))| <= |Split(s)|
    ensures s != "" && s[|s| - 1] == '\n' ==> |Split(TrimRight(s))| < |Split(s)|
  {
    if s != "" && s[|s| - 1] == '\n' {
      var before := s[..|s| - 1];
      TrimmingDropsLines(before);
      OneMoreLine(before);
      assert s == before + "\n";
    }
  }

  /** Every function line is of the library. */
  predicate AllLibrary(lines: seq<string>) {
    forall i :: 0 <= i < |lines| && i % 2 == 0 ==> IsLibraryStackFrame(lines[i])
  }

  lemma AllLibraryStep(func: string, file: string, rest: seq<string>)
    ensures AllLibrary([func, file] + rest) <==> IsLibraryStackFrame(func) && AllLibrary(rest)
  {
    hide IsLibraryStackFrame;
    var all := [func, file] + rest;
    if AllLibrary(all) {
      assert IsLibraryStackFrame(all[0]);
      forall i | 0 <= i < |rest| && i % 2 == 0 ensures IsLibraryStackFrame(rest[i]) {
        assert all[i + 2] == rest[i] && (i + 2) % 2 == 0;
      }
    } else {
      var i :| 0 <= i < |all| && i % 2 == 0 && !IsLibraryStackFrame(all[i]);
      if i >= 2 { assert all[i] == rest[i - 2] && (i - 2) % 2 == 0; }
    }
  }

  lemma {:induction false} NothingKeptIsAllLibrary(lines: seq<string>)
    ensures Kept(lines) == [] <==> AllLibrary(lines)
    decreases |lines|
  {
    hide IsLibraryStackFrame, Kept;
    if lines == [] {
      NothingKeptIff(lines);
    } else if |lines| == 1 {
      KeptStep(lines);
    } else {
      KeptStep(lines);
      NothingKeptIsAllLibrary(lines[2..]);
      assert lines == [lines[0], lines[1]] + lines[2..];
      hide AllLibrary;
      AllLibraryStep(lines[0], lines[1], lines[2..]);
    }
  }

  lemma NothingCleanedIff(stack: string, lines: seq<string>)
    requires lines == Split(TrimRight(stack))
    ensures Cleaned(stack) == "" <==> Kept(lines[1..]) == []
  {
    hide IsLibraryStackFrame, Frames, UserFrames, Lines;
    var rest := lines[1..];
    NothingKeptIff(rest);
    if Kept(rest) != [] {
      assert |[lines[0]] + Kept(rest)| > 1;
    }
    if stack == "" {
      assert rest == [];
      KeptAreLines(rest);
    }
  }

  /** Nothing is left of a trace exactly when each of its function lines is of the library, and a header alone is dropped too. */
  lemma NothingLeftIff(stack: string, lines: seq<string>)
    requires lines == Split(TrimRight(stack))
    ensures Cleaned(stack) == "" <==> forall i :: 0 < i < |lines| && i % 2 == 1 ==> IsLibraryStackFrame(lines[i])
  {
    hide IsLibraryStackFrame, Cleaned, Kept, Split, TrimRight;
    var rest := lines[1..];
    NothingCleanedIff(stack, lines);
    NothingKeptIsAllLibrary(rest);
    if Kept(rest) == [] {
      forall i | 0 < i < |lines| && i % 2 == 1 ensures IsLibraryStackFrame(lines[i]) {
        assert lines[i] == rest[i - 1] && (i - 1) % 2 == 0;
      }
    } else {
      var i :| 0 <= i < |rest| && i % 2 == 0 && !IsLibraryStackFrame(rest[i]);
      assert lines[i + 1] == rest[i] && (i + 1) % 2 == 1;
    }
  }

  /** A cleaned trace has no more lines than the trimmed trace, and its lines have no breaks. */
  lemma CleanedLines(stack: string)
    requires stack != "" && Cleaned(stack) != ""
    ensures var lines := Split(TrimRight(stack));
      && Cleaned(stack) == Join([lines[0]] + Kept(lines[1..])) && Kept(lines[1..]) != []
      && Split(Cleaned(stack)) == [lines[0]] + Kept(lines[1..])
      && |Kept(lines[1..])| < |lines|
      && forall i :: 0 <= i < |Kept(lines[1..])| ==> OneLine(Kept(lines[1..])[i])
  {
    hide IsLibraryStackFrame;
    var lines := Split(TrimRight(stack));
    var kept := Kept(lines[1..]);
    SplitIsOneLine(TrimRight(stack));
    KeptAreLines(lines[1..]);
    NothingKeptIff(lines[1..]);
    forall i | 0 <= i < |kept| ensures OneLine(kept[i]) {
      assert kept[i] in kept;
    }
    SplitJoin([lines[0]] + kept);
  }

  /** A trace whose last line is not empty is split into its lines again. */
  lemma SplitTrimJoin(lines: seq<string>)
    requires lines != [] && lines[|lines| - 1] != "" && forall i :: 0 <= i < |lines| ==> OneLine(lines[i])
    ensures Join(lines) != "" && Split(TrimRight(Join(lines))) == lines
  {
    SplitJoin(lines);
    JoinEndsInLastLine(lines);
    var last := lines[|lines| - 1];
    assert last[|last| - 1] in last;
  }

  lemma {:induction false} JoinEndsInBreak(lines: seq<string>)
    requires |lines| > 1 && lines[|lines| - 1] == ""
    ensures Join(lines) != "" && Join(lines)[|Join(lines)| - 1] == '\n'
  {
    if |lines| > 2 {
      JoinEndsInBreak(lines[1..]);
    }
  }

  lemma TrailingBreakIsLost(stack: string)
    requires stack != "" && stack[|stack| - 1] == '\n'
    ensures Cleaned(stack) != stack
  {
    hide IsLibraryStackFrame;
    TrimmingDropsLines(stack);
    if Cleaned(stack) != "" { CleanedLines(stack); }
  }

  lemma SameTail(h: string, a: seq<string>, b: seq<string>)
    ensures [h] + a == [h] + b <==> a == b
  {
    assert ([h] + a)[1..] == a && ([h] + b)[1..] == b;
  }

  lemma AllOneLine(h: string, lines: seq<string>)
    requires OneLine(h) && forall i :: 0 <= i < |lines| ==> OneLine(lines[i])
    ensures var all := [h] + lines; all[1..] == lines && forall i :: 0 <= i < |all| ==> OneLine(all[i])
  {
    hide OneLine;
    assert forall i :: 0 <= i < |lines| ==> ([h] + lines)[i + 1] == lines[i];
  }

  lemma CleanJoined(h: string, lines: seq<string>)
    requires lines != [] && lines[|lines| - 1] != "" && OneLine(h) && forall i :: 0 <= i < |lines| ==> OneLine(lines[i])
    ensures Cleaned(Join([h] + lines)) == Join([h] + lines) <==> Kept(lines) == lines
  {
    hide *;
    var all := [h] + lines;
    AllOneLine(h, lines);
    SplitJoin(all);
    assert all[|all| - 1] == lines[|lines| - 1];
    SplitTrimJoin(all);
    NothingKeptIff(lines);
    SameTail(h, Kept(lines), lines);
    CleanedIs(Join(all), h, lines);
  }

  lemma CleanedIs(stack: string, h: string, lines: seq<string>)
    requires stack != "" && Split(TrimRight(stack)) == [h] + lines && Split(stack) == [h] + lines
    ensures Cleaned(stack) == stack <==> Kept(lines) != [] && [h] + Kept(lines) == [h] + lines
  {
    hide IsLibraryStackFrame, Frames, UserFrames, Lines;
    assert ([h] + lines)[1..] == lines && ([h] + lines)[0] == h;
    NothingKeptIff(lines);
    assert Kept(lines) != [] ==> Join([h] + Kept(lines)) != "";
    if Cleaned(stack) != "" {
      CleanedLines(stack);
      if [h] + Kept(lines) == [h] + lines { SplitIsJoined(stack); }
    }
  }

  /** Cleaning leaves a trace with header `h` and further lines as it is exactly when they are stable. */
  lemma CleanIff(h: string, lines: seq<string>)
    requires lines != [] && OneLine(h) && forall i :: 0 <= i < |lines| ==> OneLine(lines[i])
    ensures Cleaned(Join([h] + lines)) == Join([h] + lines) <==> Stable(lines)
  {
    hide IsLibraryStackFrame, Kept, Cleaned, Join, OneLine, InPlace;
    if lines[|lines| - 1] == "" {
      assert ([h] + lines)[|lines|] == "";
      JoinEndsInBreak([h] + lines);
      TrailingBreakIsLost(Join([h] + lines));
    } else {
      KeepsAllIff(lines);
      CleanJoined(h, lines);
    }
  }

  /** Cleaning a cleaned trace changes nothing exactly when the lines that the first cleaning kept are stable. */
  lemma IdempotentIff(stack: string)
    ensures Cleaned(Cleaned(stack)) == Cleaned(stack) <==> Stable(Kept(Split(TrimRight(stack))[1..]))
  {
    hide IsLibraryStackFrame;
    var lines := Split(TrimRight(stack));
    NothingKeptIff(lines[1..]);
    if stack == "" {
      assert lines == [""] && lines[1..] == [];
    } else if UserFrames(Frames(lines[1..])) == [] {
      assert Cleaned(stack) == "";
    } else {
      SplitIsOneLine(TrimRight(stack));
      assert Cleaned(stack) == Join([lines[0]] + Kept(lines[1..]));
      KeptAreLines(lines[1..]);
      forall i | 0 <= i < |Kept(lines[1..])| ensures OneLine(Kept(lines[1..])[i]) {
        assert Kept(lines[1..])[i] in Kept(lines[1..]);
      }
      CleanIff(lines[0], Kept(lines[1..]));
    }
  }

  lemma {:induction false} KeptIsStable(lines: seq<string>)
    requires forall i :: 0 <= i < |lines| ==> lines[i] != ""
    ensures Stable(Kept(lines))
    decreases |lines|
  {
    hide IsLibraryStackFrame, Kept, InPlace;
    NothingKeptIff([]);
    KeepsAllIff([]);
    if lines != [] {
      KeptStep(lines);
      if |lines| == 1 {
        KeepsAllIff(lines);
      } else {
        KeptIsStable(lines[2..]);
        if IsLibraryStackFrame(lines[0]) {
          assert Kept(lines) == Kept(lines[2..]);
        } else {
          StableBehindFrame(lines[0], lines[1], Kept(lines[2..]));
          assert Kept(lines) == [lines[0], lines[1]] + Kept(lines[2..]);
        }
      }
    }
  }

  lemma StableBehindFrame(func: string, file: string, rest: seq<string>)
    requires Stable(rest) && !IsLibraryStackFrame(func) && file != ""
    ensures Stable([func, file] + rest)
  {
    InPlaceStep(func, file, rest);
    assert rest != [] ==> ([func, file] + rest)[|rest| + 1] == rest[|rest| - 1];
  }

  /** So it is on every trace without empty lines, as those of the Go runtime are. */
  lemma CleaningIsIdempotent(stack: string)
    requires forall i :: 0 <= i < |Split(TrimRight(stack))| ==> Split(TrimRight(stack))[i] != ""
    ensures Cleaned(Cleaned(stack)) == Cleaned(stack)
  {
    IdempotentIff(stack);
    KeptIsStable(Split(TrimRight(stack))[1..]);
  }

  lemma SomeFunctionLines()
    ensures !IsLibraryStackFrame("f()") && !IsLibraryStackFrame("g()") && IsLibraryStackFrame("panic(1)")
  {
    assert LIBRARY_PREFIXES[1] <= "panic(1)";
  }

  /** Cleaning keeps the header and what survives behind it. */
  lemma CleanedOf(h: string, lines: seq<string>)
    requires lines != [] && lines[|lines| - 1] != "" && OneLine(h) && forall i :: 0 <= i < |lines| ==> OneLine(lines[i])
    requires Kept(lines) != []
    ensures Cleaned(Join([h] + lines)) == Join([h] + Kept(lines))
  {
    hide IsLibraryStackFrame, Frames, UserFrames, Lines, Join, OneLine, Split;
    AllOneLine(h, lines);
    assert ([h] + lines)[|lines|] == lines[|lines| - 1];
    SplitTrimJoin([h] + lines);
    NothingKeptIff(lines);
    assert ([h] + lines)[0] == h;
  }

  lemma KeptOnce(func: string, next: string, file: string)
    requires !IsLibraryStackFrame(func) && !IsLibraryStackFrame(next) && file != ""
    ensures Kept([func, "", next, file]) == [func, next, file]
  {
    hide IsLibraryStackFrame, Kept;
    var lines := [func, "", next, file];
    assert lines[2..] == [next, file] && lines[2..][2..] == [];
    KeptStep(lines);
    KeptStep(lines[2..]);
    KeepsAllIff([]);
  }

  lemma KeptTwice(func: string, next: string, file: string)
    requires !IsLibraryStackFrame(func) && IsLibraryStackFrame(file) && next != ""
    ensures Kept([func, next, file]) == [func, next]
  {
    hide IsLibraryStackFrame, Kept;
    var lines := [func, next, file];
    assert lines[2..] == [file];
    KeptStep(lines);
    KeptStep(lines[2..]);
  }

  /** A line is dropped: the first cleaning drops the empty file line of `func`, so `next` moves to the place of
      a file line and its file line to that of a function line; there it starts like a library frame, and the
      second cleaning drops it. */
  lemma SecondCleaningDropsALine(h: string, func: string, next: string, file: string)
    requires OneLine(h) && OneLine(func) && OneLine(next) && OneLine(file)
    requires !IsLibraryStackFrame(func) && !IsLibraryStackFrame(next) && next != "" && IsLibraryStackFrame(file)
    ensures var stack := Join([h, func, "", next, file]);
      Cleaned(stack) == Join([h, func, next, file]) && Cleaned(Cleaned(stack)) == Join([h, func, next])
  {
    hide IsLibraryStackFrame, Kept, Cleaned, Join, OneLine;
    LibraryLineIsNotEmpty(file);
    NoBreak();
    KeptOnce(func, next, file);
    KeptTwice(func, next, file);
    var lines, kept := [func, "", next, file], [func, next, file];
    CleanedOf(h, lines);
    CleanedOf(h, kept);
    assert [h] + lines == [h, func, "", next, file] && [h] + kept == [h, func, next, file];
    assert [h] + [func, next] == [h, func, next];
  }

  lemma NoBreak()
    ensures OneLine("")
  {
  }

  lemma LibraryLineIsNotEmpty(line: string)
    requires IsLibraryStackFrame(line)
    ensures line != ""
  {
  }

  /** Such a trace; the Go runtime writes none, because it leaves no file line empty. */
  lemma CleaningTwiceCanDropALine()
    ensures var stack := Join(["goroutine 1:", "f()", "", "g()", "panic(1)"]);
      && Cleaned(stack) == Join(["goroutine 1:", "f()", "g()", "panic(1)"])
      && Cleaned(Cleaned(stack)) == Join(["goroutine 1:", "f()", "g()"])
  {
    hide IsLibraryStackFrame, Cleaned, Join;
    SomeFunctionLines();
    SecondCleaningDropsALine("goroutine 1:", "f()", "g()", "panic(1)");
  }
}
