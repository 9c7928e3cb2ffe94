/**
 * The asynchronous logger as a transition system: producers push lines under the mutex,
 * one writer thread takes them, rolls files and writes each line in as many pieces as
 * fwrite happens to accept. Writing to a file (m_strFileName not empty).
 */
module LogSteps {
  type Line = string

  /** One fopen of a log file: the second in its name, what was written, the length of its last whole line. */
  datatype File = File(stamp: int, content: string, last: nat)

  /** Where the writer thread stands; AboutToWait still holds the mutex. */
  datatype Writer =
    | Top
    | Checking
    | AboutToWait
    | Asleep
    | Writing(line: Line, rest: Line)
    | Exited
    | Failed(rest: Line)

  datatype Log = Log(
    queue: seq<Line>,       // m_listLinesToWrite
    exit: bool,             // m_bExit
    writer: Writer,
    size: nat,              // m_nCurrentWrittenSize
    files: seq<File>,       // every fopen so far, the open one last
    pushed: seq<Line>,      // history: lines in the order of their push
    taken: seq<Line>,       // history: lines in the order of their pop
    told: bool              // history: uninit has notified the writer
  )

  datatype Action =
    | Push(line: Line)
    | SetExit      // uninit sets m_bExit, outside the mutex
    | TellExit     // and then notifies, outside the mutex
    | Roll(stamp: int, created: bool)
    | Check
    | Sleep
    | Wake
    | Write(n: nat)
    | WriteError

  const START := Log([], false, Top, 0, [], [], [], false)

  /** The file in the head of the loop is replaced when there is none or the current one is full. */
  predicate NeedsFile(s: Log, roll: int) {
    s.files == [] || s.size >= roll
  }

  predicate Enabled(s: Log, a: Action) {
    match a
    case Push(line) => line != [] && s.writer != AboutToWait
    case SetExit => !s.exit
    case TellExit => s.exit && !s.told
    case Roll(_, _) => s.writer == Top
    case Check => s.writer == Checking
    case Sleep => s.writer == AboutToWait
    case Wake => s.writer == Asleep
    case Write(n) => s.writer.Writing? && 1 <= n <= |s.writer.rest|
    case WriteError => s.writer.Writing?
  }

  /** notify_one reaches the writer only when it is asleep. */
  function Notified(w: Writer): Writer {
    if w == Asleep then Checking else w
  }

  function Grown(files: seq<File>, more: string): (r: seq<File>)
    requires files != []
  {
    var f := files[|files| - 1];
    files[..|files| - 1] + [f.(content := f.content + more)]
  }

  function LineDone(files: seq<File>, n: nat): seq<File>
    requires files != []
  {
    files[..|files| - 1] + [files[|files| - 1].(last := n)]
  }

  function AfterWrite(s: Log, n: nat): Log
    requires s.writer.Writing? && 1 <= n <= |s.writer.rest| && s.files != []
  {
    var files := Grown(s.files, s.writer.rest[..n]);
    if n < |s.writer.rest| then s.(files := files, writer := Writing(s.writer.line, s.writer.rest[n..]))
    else s.(files := LineDone(files, |s.writer.line|), writer := Top, size := s.size + |s.writer.line|)
  }

  function AfterCheck(s: Log): Log {
    if s.queue != [] then
      s.(queue := s.queue[1..], taken := s.taken + [s.queue[0]], writer := Writing(s.queue[0], s.queue[0]))
    else if s.exit then s.(writer := Exited)
    else s.(writer := AboutToWait)
  }

  function AfterRoll(s: Log, roll: int, stamp: int, created: bool): Log {
    if !NeedsFile(s, roll) then s.(writer := Checking)
    else if created then s.(size := 0, files := s.files + [File(stamp, "", 0)], writer := Checking)
    else s.(size := 0, writer := Failed(""))
  }

  function Next(s: Log, a: Action, roll: int): Log
    requires Enabled(s, a) && (s.writer.Writing? ==> s.files != [])
  {
    match a
    case Push(line) => s.(queue := s.queue + [line], pushed := s.pushed + [line], writer := Notified(s.writer))
    case SetExit => s.(exit := true)
    case TellExit => s.(told := true, writer := Notified(s.writer))
    case Roll(stamp, created) => AfterRoll(s, roll, stamp, created)
    case Check => AfterCheck(s)
    case Sleep => s.(writer := Asleep)
    case Wake => s.(writer := Checking)
    case Write(n) => AfterWrite(s, n)
    case WriteError => s.(writer := Failed(s.writer.rest))
  }

  // ---------- what the files hold ----------

  function Joined(lines: seq<Line>): string {
    if lines == [] then "" else Joined(lines[..|lines| - 1]) + lines[|lines| - 1]
  }

  function Contents(files: seq<File>): string {
    if files == [] then "" else Contents(files[..|files| - 1]) + files[|files| - 1].content
  }

  /** The part of a taken line that has not reached the file. */
  function Pending(w: Writer): string {
    match w
    case Writing(_, rest) => rest
    case Failed(rest) => rest
    case _ => ""
  }

  function Current(s: Log): File
    requires s.files != []
  {
    s.files[|s.files| - 1]
  }

  predicate FitsBut(f: File, roll: int) {
    && 0 < f.last <= |f.content|
    && (|f.content| == f.last || |f.content| - f.last < roll)
  }

  /** A full file ends with the line that filled it: without that line it was empty or below the roll size. */
  predicate Full(f: File, roll: int) {
    && |f.content| >= roll
    && FitsBut(f, roll)
  }

  predicate Room(size: nat, roll: int) {
    size == 0 || size < roll
  }

  // ---------- the invariant ----------

  predicate Fifo(s: Log) {
    s.pushed == s.taken + s.queue
  }

  predicate Kept(s: Log) {
    Contents(s.files) + Pending(s.writer) == Joined(s.taken)
  }

  predicate LinesNotEmpty(s: Log) {
    && (forall i :: 0 <= i < |s.queue| ==> s.queue[i] != [])
    && (s.writer.Writing? ==> 0 < |s.writer.rest| <= |s.writer.line|)
  }

  /** The counter is the length of the open file, less the part already written of the line under way. */
  predicate Counted(s: Log, roll: int) {
    match s.writer
    case Top => if s.files == [] then s.size == 0 else |Current(s).content| == s.size && FitsBut(Current(s), roll)
    case Writing(line, rest) =>
      s.files != [] && |Current(s).content| == s.size + |line| - |rest| && Room(s.size, roll)
    case Failed(_) => true
    case _ => s.files != [] && |Current(s).content| == s.size && Room(s.size, roll)
  }

  predicate ClosedFull(s: Log, roll: int) {
    forall i :: 0 <= i < |s.files| - 1 ==> Full(s.files[i], roll)
  }

  predicate SleepsOnlyIdle(s: Log) {
    && (s.writer == Asleep || s.writer == AboutToWait ==> s.queue == [])
    && (s.told ==> s.exit)
  }

  predicate Inv(s: Log, roll: int) {
    Fifo(s) && Kept(s) && LinesNotEmpty(s) && Counted(s, roll) && ClosedFull(s, roll) && SleepsOnlyIdle(s)
  }

  lemma {:induction false} Assoc(a: string, b: string, c: string)
    ensures a + (b + c) == (a + b) + c
  {
  }

  lemma {:induction false} ContentsGrow(files: seq<File>, more: string)
    requires files != []
    ensures Contents(Grown(files, more)) == Contents(files) + more
  {
    var n := |files| - 1;
    assert Grown(files, more)[..n] == files[..n];
    Assoc(Contents(files[..n]), files[n].content, more);
  }

  lemma {:induction false} ContentsLineDone(files: seq<File>, n: nat)
    requires files != []
    ensures Contents(LineDone(files, n)) == Contents(files)
  {
    assert LineDone(files, n)[..|files| - 1] == files[..|files| - 1];
  }

  lemma {:induction false} ContentsNewFile(files: seq<File>, f: File)
    requires f.content == ""
    ensures Contents(files + [f]) == Contents(files)
  {
    assert (files + [f])[..|files|] == files;
    assert Contents(files) + "" == Contents(files);
  }

  lemma {:induction false} JoinedNext(lines: seq<Line>, line: Line)
    ensures Joined(lines + [line]) == Joined(lines) + line
  {
    assert (lines + [line])[..|lines|] == lines;
  }

  /** How fwrite splits a line does not matter: two pieces in a row are one piece. */
  lemma {:induction false} PiecesDoNotMatter(s: Log, n: nat, m: nat)
    requires s.writer.Writing? && s.files != [] && 1 <= n && 1 <= m && n + m <= |s.writer.rest|
    ensures AfterWrite(s, n).writer.Writing? && AfterWrite(AfterWrite(s, n), m) == AfterWrite(s, n + m)
  {
    var rest, k := s.writer.rest, |s.files| - 1;
    var once := Grown(s.files, rest[..n]);
    assert once[..k] == s.files[..k];
    assert rest[..n] + rest[n..][..m] == rest[..n + m] && rest[n..][m..] == rest[n + m..];
    Assoc(s.files[k].content, rest[..n], rest[n..][..m]);
    assert Grown(once, rest[n..][..m]) == Grown(s.files, rest[..n + m]);
  }

  lemma {:induction false} WriteKeeps(s: Log, n: nat, roll: int)
    requires Inv(s, roll) && s.writer.Writing? && 1 <= n <= |s.writer.rest|
    ensures Inv(AfterWrite(s, n), roll)
  {
    var rest := s.writer.rest;
    var files := Grown(s.files, rest[..n]);
    ContentsGrow(s.files, rest[..n]);
    ContentsLineDone(files, |s.writer.line|);
    assert rest[..n] + rest[n..] == rest;
    Assoc(Contents(s.files), rest[..n], rest[n..]);
    assert n == |rest| ==> rest[n..] == "";
  }

  lemma {:induction false} NewFileCloses(s: Log, f: File, roll: int)
    requires Counted(s, roll) && ClosedFull(s, roll) && s.writer == Top && NeedsFile(s, roll)
    ensures ClosedFull(s.(files := s.files + [f]), roll)
  {
    forall i | 0 <= i < |s.files| ensures Full((s.files + [f])[i], roll) {
      assert (s.files + [f])[i] == s.files[i];
    }
  }

  lemma {:induction false} RollKeeps(s: Log, roll: int, stamp: int, created: bool)
    requires Inv(s, roll) && s.writer == Top
    ensures Inv(AfterRoll(s, roll, stamp, created), roll)
  {
    if NeedsFile(s, roll) && created {
      var f := File(stamp, "", 0);
      ContentsNewFile(s.files, f);
      NewFileCloses(s, f, roll);
    }
  }

  lemma {:induction false} CheckKeeps(s: Log, roll: int)
    requires Inv(s, roll) && s.writer == Checking
    ensures Inv(AfterCheck(s), roll)
  {
    if s.queue != [] {
      var line := s.queue[0];
      JoinedNext(s.taken, line);
      assert Contents(s.files) + "" == Contents(s.files);
      assert s.taken + s.queue == s.taken + [line] + s.queue[1..];
    }
  }

  lemma {:induction false} PushKeeps(s: Log, line: Line, roll: int)
    requires Inv(s, roll) && Enabled(s, Push(line))
    ensures Inv(Next(s, Push(line), roll), roll)
  {
    assert s.taken + s.queue + [line] == s.taken + (s.queue + [line]);
  }

  /** Every step of the writer or of a producer keeps the invariant. */
  lemma {:induction false} StepKeeps(s: Log, a: Action, roll: int)
    requires Inv(s, roll) && Enabled(s, a)
    ensures Inv(Next(s, a, roll), roll)
  {
    match a
    case Push(line) => PushKeeps(s, line, roll);
    case Roll(stamp, created) => RollKeeps(s, roll, stamp, created);
    case Check => CheckKeeps(s, roll);
    case Write(n) => WriteKeeps(s, n, roll);
    case _ =>
  }

  ghost predicate Run(s: Log, actions: seq<Action>, t: Log, roll: int)
    decreases |actions|
  {
    if actions == [] then t == s
    else
      && Enabled(s, actions[0]) && (s.writer.Writing? ==> s.files != [])
      && Run(Next(s, actions[0], roll), actions[1..], t, roll)
  }

  /** One more step in front of a run. */
  lemma {:induction false} Before(s: Log, a: Action, rest: seq<Action>, t: Log, roll: int) returns (actions: seq<Action>)
    requires Enabled(s, a) && (s.writer.Writing? ==> s.files != []) && Run(Next(s, a, roll), rest, t, roll)
    ensures actions == [a] + rest && Run(s, actions, t, roll)
  {
    actions := [a] + rest;
    assert actions[1..] == rest;
  }

  lemma {:induction false} RunKeeps(s: Log, actions: seq<Action>, t: Log, roll: int)
    requires Inv(s, roll) && Run(s, actions, t, roll)
    ensures Inv(t, roll)
    decreases |actions|
  {
    if actions != [] {
      StepKeeps(s, actions[0], roll);
      RunKeeps(Next(s, actions[0], roll), actions[1..], t, roll);
    }
  }

  /**
   * In every run, whatever the pieces fwrite accepts: the files together hold the taken lines in
   * the order of the queue, up to the part of one line still to be written; the lines taken are the
   * first ones pushed; and every file but the last holds at least the roll size, less than the roll
   * size without its last line (or only that line).
   */
  lemma {:induction false} Faithful(actions: seq<Action>, t: Log, roll: int)
    requires Run(START, actions, t, roll)
    ensures t.pushed == t.taken + t.queue
    ensures Contents(t.files) + Pending(t.writer) == Joined(t.taken)
    ensures forall i :: 0 <= i < |t.files| - 1 ==> Full(t.files[i], roll)
    ensures t.writer == Checking ==> t.files != [] && t.size == |Current(t).content|
  {
    assert Contents([]) + "" == "";
    RunKeeps(START, actions, t, roll);
  }

  /** The writer leaves through m_bExit only when every line pushed so far is in the files. */
  lemma {:induction false} ExitsDrained(actions: seq<Action>, s: Log, a: Action, roll: int)
    requires Run(START, actions, s, roll) && Enabled(s, a) && (s.writer.Writing? ==> s.files != [])
    requires s.writer != Exited && Next(s, a, roll).writer == Exited
    ensures s.exit && s.queue == [] && Contents(s.files) == Joined(s.pushed)
  {
    Faithful(actions, s, roll);
    assert s.taken + [] == s.taken;
    assert Contents(s.files) + "" == Contents(s.files);
  }

  /** A sleeping writer has no line to write: a push always wakes it. */
  lemma {:induction false} NoLostWakeUp(actions: seq<Action>, t: Log, roll: int)
    requires Run(START, actions, t, roll) && t.writer == Asleep
    ensures t.queue == []
  {
    assert Contents([]) + "" == "";
    RunKeeps(START, actions, t, roll);
  }

  // ---------- does the exit flag reach the writer? ----------

  /** Uninit has done all it does before it joins, and the writer sleeps. */
  predicate MissedExit(s: Log) {
    s.exit && s.told && s.writer == Asleep
  }

  /** In some run uninit goes on to join a writer that sleeps. */
  ghost predicate MayMissExit(s: Log, roll: int) {
    exists actions, t :: Run(s, actions, t, roll) && MissedExit(t)
  }

  /** Once the flag is set, a writer past its check for it cannot come back to the wait. */
  predicate WillSee(s: Log) {
    s.exit && s.writer != AboutToWait && (s.told ==> s.writer != Asleep)
  }

  lemma {:induction false} WillSeeStep(s: Log, a: Action, roll: int)
    requires Inv(s, roll) && WillSee(s) && Enabled(s, a)
    ensures WillSee(Next(s, a, roll))
  {
  }

  lemma {:induction false} WillSeeRun(s: Log, actions: seq<Action>, t: Log, roll: int)
    requires Inv(s, roll) && WillSee(s) && Run(s, actions, t, roll)
    ensures WillSee(t)
    decreases |actions|
  {
    if actions != [] {
      StepKeeps(s, actions[0], roll);
      WillSeeStep(s, actions[0], roll);
      WillSeeRun(Next(s, actions[0], roll), actions[1..], t, roll);
    }
  }

  lemma {:induction false} WindowMisses(s: Log, roll: int)
    requires s.exit && !s.told && s.writer == AboutToWait
    ensures MayMissExit(s, roll)
  {
    var told := Next(s, TellExit, roll);
    var asleep := Next(told, Sleep, roll);
    var last := Before(told, Sleep, [], asleep, roll);
    var both := Before(s, TellExit, last, asleep, roll);
  }

  /**
   * Whatever follows, pushes and spurious wake-ups included: setting the flag can end with uninit joining a sleeping
   * writer if and only if it is set while the writer is between its check of the flag and its wait.
   */
  lemma {:induction false} ExitMissedIff(s: Log, roll: int)
    requires Inv(s, roll) && Enabled(s, SetExit) && (s.writer.Writing? ==> s.files != [])
    ensures MayMissExit(Next(s, SetExit, roll), roll) <==> s.writer == AboutToWait
  {
    var flagged := Next(s, SetExit, roll);
    if s.writer == AboutToWait {
      WindowMisses(flagged, roll);
    } else {
      StepKeeps(s, SetExit, roll);
      forall actions, t | Run(flagged, actions, t, roll) ensures !MissedExit(t) {
        WillSeeRun(flagged, actions, t, roll);
      }
    }
  }

  /** That window is reached from the start. */
  lemma {:induction false} WindowReachable(roll: int, stamp: int)
    ensures exists actions, t :: Run(START, actions, t, roll) && t.writer == AboutToWait && Enabled(t, SetExit)
  {
    var rolled := Next(START, Roll(stamp, true), roll);
    var checked := Next(rolled, Check, roll);
    var last := Before(rolled, Check, [], checked, roll);
    var both := Before(START, Roll(stamp, true), last, checked, roll);
  }

  // ---------- what is left on disk ----------

  /** A later fopen of the same name truncates. */
  predicate Reopened(files: seq<File>, i: nat)
    requires i < |files|
  {
    exists j :: i < j < |files| && files[j].stamp == files[i].stamp
  }

  /** The first n files as they are on disk in the end, in the order they were opened. */
  function OnDisk(files: seq<File>, n: nat): string
    requires n <= |files|
  {
    if n == 0 then "" else OnDisk(files, n - 1) + (if Reopened(files, n - 1) then "" else files[n - 1].content)
  }

  predicate DistinctNames(files: seq<File>) {
    forall i, j :: 0 <= i < j < |files| ==> files[i].stamp != files[j].stamp
  }

  lemma {:induction false} DiskSize(files: seq<File>, n: nat)
    requires n <= |files| && forall i :: 0 <= i < |files| - 1 ==> files[i].content != ""
    ensures |OnDisk(files, n)| <= |Contents(files[..n])|
    ensures |OnDisk(files, n)| == |Contents(files[..n])| <==> forall i :: 0 <= i < n ==> !Reopened(files, i)
    ensures |OnDisk(files, n)| == |Contents(files[..n])| ==> OnDisk(files, n) == Contents(files[..n])
    decreases n
  {
    if n > 0 {
      DiskSize(files, n - 1);
      assert files[..n][..n - 1] == files[..n - 1];
    }
  }

  lemma {:induction false} DistinctIff(files: seq<File>)
    ensures DistinctNames(files) <==> forall i :: 0 <= i < |files| ==> !Reopened(files, i)
  {
    if i, j :| 0 <= i < j < |files| && files[i].stamp == files[j].stamp {
      assert Reopened(files, i);
    }
  }

  /**
   * The disk holds exactly the taken lines if and only if no two files were opened within the same
   * second: names carry the time to the second, and a second fopen of a name truncates it.
   */
  lemma {:induction false} NothingLostIff(actions: seq<Action>, t: Log, roll: int)
    requires Run(START, actions, t, roll) && Pending(t.writer) == ""
    ensures OnDisk(t.files, |t.files|) == Joined(t.taken) <==> DistinctNames(t.files)
  {
    Faithful(actions, t, roll);
    var files, n := t.files, |t.files|;
    assert files[..n] == files;
    assert Contents(files) + "" == Contents(files);
    DiskSize(files, n);
    DistinctIff(files);
  }

  lemma {:induction false} Truncated(stamp: int, text: string, n: nat)
    ensures OnDisk([File(stamp, text, n), File(stamp, "", 0)], 2) == ""
  {
    var files := [File(stamp, text, n), File(stamp, "", 0)];
    assert files[1].stamp == files[0].stamp;
    assert OnDisk(files, 1) == "";
  }

  lemma {:induction false} OneLineFile(stamp: int)
    ensures LineDone(Grown([File(stamp, "", 0)], "a"), 1) + [File(stamp, "", 0)] == [File(stamp, "a", 1), File(stamp, "", 0)]
  {
    var files := [File(stamp, "", 0)];
    assert "" + "a" == "a" && files[..0] == [];
  }

  /** Two files of the same second: the first line is gone. */
  lemma {:induction false} SameSecondLoses(stamp: int)
    ensures exists actions, t :: Run(START, actions, t, 1)
                                 && Pending(t.writer) == "" && t.taken == ["a"] && OnDisk(t.files, |t.files|) == ""
  {
    var s1 := Next(START, Push("a"), 1);
    var s2 := Next(s1, Roll(stamp, true), 1);
    var s3 := Next(s2, Check, 1);
    assert s2 == Log(["a"], false, Checking, 0, [File(stamp, "", 0)], ["a"], [], false);
    assert s3 == Log([], false, Writing("a", "a"), 0, [File(stamp, "", 0)], ["a"], ["a"], false);
    var s4 := Next(s3, Write(1), 1);
    assert "a"[..1] == "a";
    assert s4 == Log([], false, Top, 1, LineDone(Grown([File(stamp, "", 0)], "a"), 1), ["a"], ["a"], false);
    var t := Next(s4, Roll(stamp, true), 1);
    OneLineFile(stamp);
    Truncated(stamp, "a", 1);
    var a5 := Before(s4, Roll(stamp, true), [], t, 1);
    var a4 := Before(s3, Write(1), a5, t, 1);
    var a3 := Before(s2, Check, a4, t, 1);
    var a2 := Before(s1, Roll(stamp, true), a3, t, 1);
    var a1 := Before(START, Push("a"), a2, t, 1);
  }
}
