/**
 * The configuration reader on its character buffer: scans and cuts made in place on
 * NUL-terminated strings, proved to be the reading and writing of ConfigText.
 */
module ConfigReader {
  import opened Protocol
  import opened ConfigText

  /** The C string at position at is s. */
  ghost predicate CStr(a: array<char>, at: nat, s: string)
    reads a
  {
    && at + |s| < a.Length && a[at + |s|] == NUL
    && (forall k :: 0 <= k < |s| ==> a[at + k] == s[k] && s[k] != NUL)
  }

  method StrLen(a: array<char>, at: nat, ghost s: string) returns (n: nat)
    requires CStr(a, at, s)
    ensures n == |s|
  {
    n := 0;
    while a[at + n] != NUL
      invariant n <= |s| && (n < |s| ==> a[at + n] == s[n] && s[n] != NUL)
      decreases |s| - n
    {
      n := n + 1;
    }
  }

  /** The position of the first c, or -1. */
  method StrChr(a: array<char>, at: nat, c: char, ghost s: string) returns (p: int)
    requires CStr(a, at, s) && c != NUL
    ensures p == if IndexOf(s, c) < |s| then at + IndexOf(s, c) else -1
  {
    var n := 0;
    while a[at + n] != NUL && a[at + n] != c
      invariant n <= |s| && forall k :: 0 <= k < n ==> s[k] != c
      decreases |s| - n
    {
      n := n + 1;
    }
    IndexUnique(s, c, n);
    p := if a[at + n] == NUL then -1 else at + n;
  }

  /** The string object made from a C string. */
  method ToString(a: array<char>, at: nat, ghost s: string) returns (r: string)
    requires CStr(a, at, s)
    ensures r == s
  {
    var n := StrLen(a, at, s);
    r := a[at..at + n];
  }

  /** Cut the C string at a position inside it. */
  method Cut(a: array<char>, at: nat, n: nat, ghost s: string)
    requires CStr(a, at, s) && n <= |s|
    modifies a
    ensures CStr(a, at, s[..n]) && (n < |s| ==> CStr(a, at + n + 1, s[n + 1..]))
    ensures forall k :: 0 <= k < a.Length && k != at + n ==> a[k] == old(a[k])
  {
    a[at + n] := NUL;
  }

  /** The scan of trimSpace from the front. */
  method SkipBlanks(a: array<char>, name: nat, ghost s: string) returns (start: nat)
    requires CStr(a, name, s)
    ensures CStr(a, start, TrimLeft(s)) && start + |TrimLeft(s)| == name + |s|
    ensures TrimLeft(s) != "" ==> !Blank(TrimLeft(s)[0])
  {
    start := name;
    assert s[0..] == s;
    while Blank(a[start])
      invariant name <= start <= name + |s| && TrimLeft(s[start - name..]) == TrimLeft(s)
      decreases name + |s| - start
    {
      start := start + 1;
    }
    ghost var left := s[start - name..];
    assert left != "" ==> a[start] == left[0] == s[start - name];
  }

  /** The scan of trimSpace from the back, which stops at the latest at the first character. */
  method CutBlanks(a: array<char>, start: nat, last: nat, ghost s: string)
    requires CStr(a, start, s) && s != "" && !Blank(s[0]) && last == start + |s| - 1
    modifies a
    ensures CStr(a, start, TrimRight(s))
    ensures forall k :: 0 <= k < a.Length && !(start <= k < start + |s|) ==> a[k] == old(a[k])
  {
    var endPos := last;
    ghost var now := s;
    while Blank(a[endPos])
      invariant endPos == start + |now| - 1 && 0 < |now| <= |s| && now[0] == s[0]
      invariant CStr(a, start, now) && TrimRight(now) == TrimRight(s)
      invariant forall k :: 0 <= k < a.Length && !(start <= k < start + |s|) ==> a[k] == old(a[k])
      decreases endPos
    {
      assert a[endPos] == now[|now| - 1];
      a[endPos] := NUL;
      endPos, now := endPos - 1, now[..|now| - 1];
    }
    assert a[endPos] == now[|now| - 1];
  }

  /**
   * Trims in place: the result is the start of the trimmed string, or -1 (NULL) if nothing is left.
   * Every character read and written lies inside the string or is its terminator.
   */
  method TrimSpace(a: array<char>, name: nat, ghost s: string) returns (start: int)
    requires CStr(a, name, s)
    modifies a
    ensures if Trim(s) == "" then start == -1
            else name <= start && start + |Trim(s)| <= name + |s| && CStr(a, start, Trim(s))
    ensures forall k :: 0 <= k < a.Length && !(name <= k < name + |s|) ==> a[k] == old(a[k])
  {
    ghost var left := TrimLeft(s);
    var startPos := SkipBlanks(a, name, s);
    var len := StrLen(a, startPos, left);
    TrimLeftPart(s);
    TrimRightPart(left);
    if len == 0 {
      return -1;
    }
    var whole := StrLen(a, name, s);
    TrimRightKeeps(left, 0);
    CutBlanks(a, startPos, name + whole - 1, left);
    return startPos;
  }

  lemma {:induction false} FgetsIs(text: string, n: nat)
    requires 0 < n <= LINE_ROOM && n <= |text| && forall k :: 0 <= k < n - 1 ==> text[k] != '\n'
    requires n == LINE_ROOM || n == |text| || text[n - 1] == '\n'
    ensures FgetsLen(text, LINE_ROOM) == n
  {
    assert text == text[..n - 1] + text[n - 1..];
    FgetsCat(text[..n - 1], text[n - 1..], LINE_ROOM);
    assert text[n - 1..][0] == text[n - 1];
    if text[n - 1] != '\n' {
      assert FgetsLen(text[n - 1..][1..], LINE_ROOM - n) == 0;
    }
  }

  /** Fills the buffer with one fgets of the unread text. */
  method Fgets(buf: array<char>, rest: string) returns (n: nat)
    requires buf.Length == 256 && rest != ""
    modifies buf
    ensures n == FgetsLen(rest, LINE_ROOM) > 0 && CStr(buf, 0, CString(rest[..n]))
    ensures forall k :: 0 <= k < n - 1 ==> rest[k] != '\n'
  {
    n := 0;
    var done := false;
    while n < 255 && n < |rest| && !done
      invariant n <= 255 && n <= |rest| && (done ==> n > 0 && rest[n - 1] == '\n')
      invariant forall k :: 0 <= k < n ==> buf[k] == rest[k]
      invariant forall k :: 0 <= k < (if done then n - 1 else n) ==> rest[k] != '\n'
      decreases |rest| - n, !done
    {
      buf[n] := rest[n];
      done := rest[n] == '\n';
      n := n + 1;
    }
    buf[n] := NUL;
    FgetsIs(rest, n);
  }

  lemma {:induction false} FillAppend(m: map<string, string>, ps: seq<Pair>, qs: seq<Pair>)
    ensures Fill(m, ps + qs) == Fill(Fill(m, ps), qs)
    decreases |ps|
  {
    if ps == [] {
      assert ps + qs == qs;
    } else {
      FillAppend(Insert(m, ps[0]), ps[1..], qs);
      assert (ps + qs)[1..] == ps[1..] + qs;
    }
  }

  lemma {:induction false} FillNext(m: map<string, string>, rest: string)
    requires rest != ""
    ensures var n := FgetsLen(rest, LINE_ROOM);
            Fill(m, Parsed(rest)) == Fill(Fill(m, AsSeq(ParseLine(Content(rest[..n])))), Parsed(rest[n..]))
  {
    var n := FgetsLen(rest, LINE_ROOM);
    FillAppend(m, AsSeq(ParseLine(Content(rest[..n]))), Parsed(rest[n..]));
  }

  /** The keys of m, each once. */
  ghost predicate Enumerates(order: seq<string>, m: map<string, string>) {
    && (forall i, j :: 0 <= i < j < |order| ==> order[i] != order[j])
    && (forall i :: 0 <= i < |order| ==> order[i] in m)
    && (forall k :: k in m ==> k in order)
  }

  function PairsOf(order: seq<string>, m: map<string, string>): (ps: seq<Pair>)
    requires forall i :: 0 <= i < |order| ==> order[i] in m
    ensures |ps| == |order| && forall i :: 0 <= i < |ps| ==> ps[i] == Pair(order[i], m[order[i]])
  {
    seq(|order|, i requires 0 <= i < |order| => Pair(order[i], m[order[i]]))
  }

  /** Inserting the pairs of a map gives the map, in whatever order. */
  lemma {:induction false} FillPairs(order: seq<string>, m: map<string, string>)
    requires Enumerates(order, m)
    ensures DistinctKeys(PairsOf(order, m)) && Fill(map[], PairsOf(order, m)) == m
  {
    var ps := PairsOf(order, m);
    var r := Fill(map[], ps);
    forall k | k in m ensures k in r && r[k] == m[k] {
      var i :| 0 <= i < |order| && order[i] == k;
      FillHas(map[], ps, i);
    }
    forall k | k in r ensures k in m {
      FillFrom(map[], ps, k);
    }
  }

  /** snprintf into 128 characters. */
  method PrintPair(key: string, value: string) returns (szPaire: string)
    ensures szPaire == Line(Pair(key, value))
  {
    szPaire := key + "=" + value + "\n";
    if |szPaire| > 127 {
      szPaire := szPaire[..127];
    }
  }

  lemma {:induction false} WrittenCat(ps: seq<Pair>, qs: seq<Pair>)
    ensures Written(ps + qs) == Written(ps) + Written(qs)
    decreases |ps|
  {
    if ps == [] {
      assert ps + qs == qs;
    } else {
      WrittenCat(ps[1..], qs);
      assert (ps + qs)[1..] == ps[1..] + qs;
    }
  }

  lemma {:induction false} WrittenNext(all: seq<Pair>, i: nat)
    requires i < |all|
    ensures Written(all[..i + 1]) == Written(all[..i]) + Line(all[i])
  {
    assert all[..i + 1] == all[..i] + [all[i]];
    WrittenCat(all[..i], [all[i]]);
    assert Line(all[i]) + "" == Line(all[i]);
  }

  lemma {:induction false} WrittenWhole(all: seq<Pair>)
    ensures Written(all[..|all|]) == Written(all)
  {
    assert all[..|all|] == all;
  }

  class ConfigFileReader {
    var loadOk: bool
    var configMap: map<string, string>

    /** A file that cannot be opened leaves the reader unloaded. */
    constructor (file: Option<string>)
      requires file.Some? ==> Loadable(file.value)
      ensures loadOk == file.Some?
      ensures configMap == if file.Some? then Load(file.value) else map[]
    {
      loadOk, configMap := false, map[];
      new;
      if file.Some? {
        LoadFile(file.value);
      }
    }

    /** The value of a key, if a file was loaded. */
    method GetConfigName(name: string) returns (value: Option<string>)
      ensures value == if loadOk && name in configMap then Some(configMap[name]) else None
    {
      value := None;
      if loadOk && name in configMap {
        value := Some(configMap[name]);
      }
    }

    method ParseLine(buf: array<char>, ghost line: string)
      requires CStr(buf, 0, line)
      modifies buf, this`configMap
      ensures configMap == Fill(old(configMap), AsSeq(ConfigText.ParseLine(line)))
    {
      var p := StrChr(buf, 0, '=', line);
      if p == -1 {
        return;
      }
      Cut(buf, 0, p, line);
      ghost var front, back := line[..p], line[p + 1..];
      var key := TrimSpace(buf, 0, front);
      assert CStr(buf, p + 1, back);
      var value := TrimSpace(buf, p + 1, back);
      if key != -1 && value != -1 {
        assert CStr(buf, key, Trim(front));
        var k := ToString(buf, key, Trim(front));
        var v := ToString(buf, value, Trim(back));
        if k !in configMap {
          configMap := configMap[k := v];
        }
      }
    }

    /** One turn of the loop of loadFile: newline off, comment off, then the line. */
    method ReadChunk(buf: array<char>, ghost chunk: string)
      requires chunk != "" && chunk[0] != NUL && CStr(buf, 0, CString(chunk))
      requires forall k :: 0 <= k < |chunk| - 1 ==> chunk[k] != '\n'
      modifies buf, this`configMap
      ensures configMap == Fill(old(configMap), AsSeq(ConfigText.ParseLine(Content(chunk))))
    {
      ghost var s := CString(chunk);
      var len := StrLen(buf, 0, s);
      ghost var line := Before(s, '\n');
      if buf[len - 1] == '\n' {
        IndexUnique(s, '\n', len - 1);
        Cut(buf, 0, len - 1, s);
      } else {
        IndexUnique(s, '\n', len);
        assert s[..len] == s;
      }
      var ch := StrChr(buf, 0, '#', line);
      if ch != -1 {
        Cut(buf, 0, ch, line);
      } else {
        assert line[..|line|] == line;
      }
      var left := StrLen(buf, 0, Content(chunk));
      if left != 0 {
        ParseLine(buf, Content(chunk));
      } else {
        assert Content(chunk) == "";
      }
    }

    method LoadFile(text: string)
      requires Loadable(text)
      modifies this
      ensures loadOk && configMap == Fill(old(configMap), Parsed(text))
    {
      var buf := new char[256](_ => NUL);
      var rest := text;
      ghost var was := configMap;
      while rest != ""
        invariant Loadable(rest) && Fill(configMap, Parsed(rest)) == Fill(was, Parsed(text))
        decreases |rest|
      {
        var n := Fgets(buf, rest);
        FillNext(configMap, rest);
        ReadChunk(buf, rest[..n]);
        rest := rest[n..];
      }
      loadOk := true;
    }

    /**
     * Writes the pairs of the map in the order of its iterator: the result is the code returned and what the
     * file holds, if it could be opened. Accepted is how many of the writes succeed.
     */
    method WriteFile(order: seq<string>, canOpen: bool, accepted: nat) returns (code: int, text: Option<string>)
      requires Enumerates(order, configMap)
      ensures code == if canOpen && accepted >= |order| then 0 else -1
      ensures var all := PairsOf(order, configMap);
              text == if !canOpen then None
                      else if accepted < |order| then Some(Written(all[..accepted])) else Some(Written(all))
    {
      if !canOpen {
        return -1, None;
      }
      var content := "";
      ghost var all := PairsOf(order, configMap);
      for i := 0 to |order|
        invariant content == Written(all[..i]) && i <= accepted
        invariant |all| == |order| && all == PairsOf(order, configMap)
      {
        if i == accepted {
          return -1, Some(content);
        }
        WrittenNext(all, i);
        var szPaire := PrintPair(order[i], configMap[order[i]]);
        content := content + szPaire;
      }
      WrittenWhole(all);
      return 0, Some(content);
    }

    /**
     * The file is rewritten from the updated map; the result is the code returned and what the file holds,
     * if it was opened, which a reader can load. After a success a fresh reader has the updated map if and only
     * if its pairs survive.
     */
    method SetConfigValue(name: string, value: string, canOpen: bool, accepted: nat, order: seq<string>)
      returns (code: int, text: Option<string>)
      requires loadOk ==> Enumerates(order, configMap[name := value])
      modifies this`configMap
      ensures !loadOk ==> code == -1 && text == None && configMap == old(configMap)
      ensures loadOk ==> configMap == old(configMap)[name := value]
      ensures loadOk ==> code == if canOpen && accepted >= |order| then 0 else -1
      ensures loadOk ==> (text.Some? <==> canOpen)
      ensures text.Some? && NulFree(PairsOf(order, configMap)) ==> Loadable(text.value)
      ensures code == 0 ==>
                text.Some? &&
                (Load(text.value) == configMap <==>
                 AllClean(PairsOf(order, configMap)) && Fits(PairsOf(order, configMap)))
    {
      if !loadOk {
        return -1, None;
      }
      configMap := configMap[name := value];
      code, text := WriteFile(order, canOpen, accepted);
      ghost var all := PairsOf(order, configMap);
      FillPairs(order, configMap);
      RoundTripIff(all);
      if NulFree(all) {
        WrittenLoads(all);
        if accepted < |order| {
          WrittenLoads(all[..accepted]);
        }
      }
    }
  }
}
