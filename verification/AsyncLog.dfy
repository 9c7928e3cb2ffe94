/**
 * The logger's methods, each proved to do what the transition system of LogSteps says:
 * the push of output and outputBinary, the file roll, the take, the partial-write loop,
 * and the drain of writeThreadProc after m_bExit.
 */
module AsyncLogger {
  import opened LogSteps

  /** What one fwrite of len bytes returns when the device would accept r. */
  function Fwrite(r: int, len: nat): nat {
    if r <= 0 then 0 else if r <= len then r else len
  }

  /** Bytes accepted in all of a string of that length, by fwrites accepting at most these amounts in turn. */
  function Accepted(len: nat, accepts: seq<int>): (n: nat)
    ensures n <= len
    decreases |accepts|
  {
    if len == 0 || accepts == [] || accepts[0] <= 0 then 0
    else var n := Fwrite(accepts[0], len); n + Accepted(len - n, accepts[1..])
  }

  lemma {:induction false} AllTaken(s: Log, roll: int)
    requires Inv(s, roll) && s.queue == [] && s.writer == Checking
    ensures Contents(s.files) == Joined(s.pushed)
  {
    assert s.taken + [] == s.taken;
    assert Contents(s.files) + "" == Contents(s.files);
  }

  lemma {:induction false} AcceptedStep(len: nat, accepts: seq<int>)
    requires accepts != [] && Fwrite(accepts[0], len) > 0
    ensures Accepted(len, accepts) == Fwrite(accepts[0], len) + Accepted(len - Fwrite(accepts[0], len), accepts[1..])
  {
  }

  lemma {:induction false} GrownNone(files: seq<File>, data: Line)
    requires files != []
    ensures Grown(files, data[..0]) == files
  {
    var f := files[|files| - 1];
    assert f.content + data[..0] == f.content;
  }

  lemma {:induction false} GrownMore(files: seq<File>, data: Line, done: nat, n: nat)
    requires files != [] && done + n <= |data|
    ensures Grown(Grown(files, data[..done]), data[done..][..n]) == Grown(files, data[..done + n])
    ensures data[done..][n..] == data[done + n..]
  {
    var m := |files| - 1;
    var grown := Grown(files, data[..done]);
    assert grown[..m] == files[..m];
    assert files[m].content + data[..done] + data[done..][..n] == files[m].content + data[..done + n];
  }

  class AsyncLog {
    var queue: seq<Line>
    var exit: bool
    var size: nat
    var files: seq<File>

    const rollSize: int

    constructor (rollSize: int)
      ensures queue == [] && !exit && size == 0 && files == [] && this.rollSize == rollSize
    {
      queue, exit, size, files, this.rollSize := [], false, 0, [], rollSize;
    }

    /** The state as the transition system sees it, with the writer at w and some history. */
    ghost function View(w: Writer, pushed: seq<Line>, taken: seq<Line>, told: bool): Log
      reads this
    {
      Log(queue, exit, w, size, files, pushed, taken, told)
    }

    /** The push at the end of output, and of outputBinary. */
    method Push(line: Line)
      modifies this`queue
      ensures queue == old(queue) + [line]
    {
      queue := queue + [line];
    }

    /** The head of the writer's loop. Stamp is the second the new file would be named after. */
    method Roll(stamp: int, created: bool, ghost pushed: seq<Line>, ghost taken: seq<Line>, ghost told: bool)
      returns (ok: bool)
      modifies this`size, this`files
      ensures ok <==> !(NeedsFile(old(View(Top, pushed, taken, told)), rollSize) && !created)
      ensures AfterRoll(old(View(Top, pushed, taken, told)), rollSize, stamp, created)
              == View(if ok then Checking else Failed(""), pushed, taken, told)
    {
      ok := true;
      if files == [] || size >= rollSize {
        size := 0;
        if created {
          files := files + [File(stamp, "", 0)];
        } else {
          ok := false;
        }
      }
    }

    /** One look at the queue under the mutex; no line means exit if m_bExit is set, else wait. */
    method Take(ghost pushed: seq<Line>, ghost taken: seq<Line>, ghost told: bool) returns (line: Line, got: bool)
      modifies this`queue
      ensures got <==> old(queue) != []
      ensures got ==>
                AfterCheck(old(View(Checking, pushed, taken, told))) == View(Writing(line, line), pushed, taken + [line], told)
      ensures !got ==> queue == old(queue)
    {
      got := queue != [];
      line := "";
      if got {
        line := queue[0];
        queue := queue[1..];
      }
    }

    /**
     * The partial-write loop: the file grows by exactly the accepted prefix of the data, and the
     * result is true if and only if the data was not empty and all of it was accepted.
     */
    method WriteToFile(data: Line, accepts: seq<int>) returns (ok: bool)
      requires files != []
      modifies this`files
      ensures files == Grown(old(files), data[..Accepted(|data|, accepts)])
      ensures ok <==> data != [] && Accepted(|data|, accepts) == |data|
    {
      var local, left := data, accepts;
      ghost var done := 0;
      GrownNone(files, data);
      while true
        invariant 0 <= done <= |data| && local == data[done..] && (done > 0 ==> local != [])
        invariant files != [] && files == Grown(old(files), data[..done])
        invariant done + Accepted(|local|, left) == Accepted(|data|, accepts)
        decreases |left|
      {
        var ret := if left != [] then Fwrite(left[0], |local|) else 0;
        if ret == 0 {
          return false;
        }
        AcceptedStep(|local|, left);
        GrownMore(old(files), data, done, ret);
        files := Grown(files, local[..ret]);
        local, left, done := local[ret..], left[1..], done + ret;
        if local == [] {
          return true;
        }
      }
    }

    /** The tail of the loop: the taken line goes to the file and is added to the counter. */
    method WriteLine(line: Line, accepts: seq<int>, ghost pushed: seq<Line>, ghost taken: seq<Line>, ghost told: bool)
      returns (ok: bool)
      requires Inv(View(Writing(line, line), pushed, taken, told), rollSize)
      modifies this`size, this`files
      ensures ok <==> Accepted(|line|, accepts) == |line|
      ensures ok ==> View(Top, pushed, taken, told) == AfterWrite(old(View(Writing(line, line), pushed, taken, told)), |line|)
      ensures ok ==> Inv(View(Top, pushed, taken, told), rollSize)
    {
      WriteKeeps(View(Writing(line, line), pushed, taken, told), |line|, rollSize);
      ok := WriteToFile(line, accepts);
      if ok {
        files := LineDone(files, |line|);    // only the model remembers where the last line begins
        size := size + |line|;
      }
    }

    /**
     * One turn of the writer's loop: roll, take, write. Done tells that the queue was empty, more that the
     * line taken is written; neither is true if a file or a write failed.
     */
    method Turn(stamp: int, created: bool, accepts: seq<int>,
                ghost pushed: seq<Line>, ghost taken: seq<Line>, ghost told: bool) returns (done: bool, more: bool)
      requires Inv(View(Top, pushed, taken, told), rollSize)
      modifies this`queue, this`size, this`files
      ensures done ==> queue == [] == old(queue) && Inv(View(Checking, pushed, taken, told), rollSize)
      ensures more ==> !done && old(queue) != [] && queue == old(queue)[1..]
      ensures more ==> Inv(View(Top, pushed, taken + [old(queue)[0]], told), rollSize)
    {
      RollKeeps(View(Top, pushed, taken, told), rollSize, stamp, created);
      var ok := Roll(stamp, created, pushed, taken, told);
      if !ok {
        return false, false;
      }
      CheckKeeps(View(Checking, pushed, taken, told), rollSize);
      var line, got := Take(pushed, taken, told);
      if !got {
        return true, false;
      }
      more := WriteLine(line, accepts, pushed, taken + [line], told);
      done := false;
    }

    /**
     * writeThreadProc once m_bExit is set and nobody pushes any more: unless a file or a write
     * fails, it ends with the queue empty and every line pushed so far in the files, in order.
     */
    method WriteThreadProc(stamps: nat -> int, created: nat -> bool, accepts: nat -> seq<int>,
                           ghost pushed: seq<Line>, ghost taken: seq<Line>, ghost told: bool) returns (ok: bool)
      requires exit && Inv(View(Top, pushed, taken, told), rollSize)
      modifies this`queue, this`size, this`files
      ensures ok ==> queue == [] && Contents(files) == Joined(pushed)
      ensures ok ==> forall i :: 0 <= i < |files| - 1 ==> Full(files[i], rollSize)
    {
      ghost var all := taken;
      var turn, more := 0, true;
      ok := true;
      while more
        invariant more ==> Inv(View(Top, pushed, all, told), rollSize)
        invariant !more ==> (ok ==> Inv(View(Checking, pushed, all, told), rollSize) && queue == [])
        decreases more, |queue|
      {
        ghost var next := if queue == [] then all else all + [queue[0]];
        ok, more := Turn(stamps(turn), created(turn), accepts(turn), pushed, all, told);
        if more {
          all := next;
        }
        turn := turn + 1;
      }
      if ok {
        AllTaken(View(Checking, pushed, all, told), rollSize);
      }
    }
  }
}
