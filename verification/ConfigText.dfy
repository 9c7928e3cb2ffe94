/**
 * The configuration file as text: what loadFile reads from any text, what writeFile prints for
 * a list of pairs, and exactly when reading gives back what was printed.
 */
module ConfigText {
  datatype Pair = Pair(key: string, value: string)

  datatype Parse = Nothing | Found(pair: Pair)

  const LINE_ROOM := 255      // fgets into 256 characters
  const PAIR_ROOM := 127      // snprintf into 128 characters
  const NUL: char := '\0'

  predicate Blank(c: char) {
    c == ' ' || c == '\t' || c == '\r'
  }

  // ---------- reading ----------

  function TrimLeft(s: string): string {
    if s != "" && Blank(s[0]) then TrimLeft(s[1..]) else s
  }

  function TrimRight(s: string): string {
    if s != "" && Blank(s[|s| - 1]) then TrimRight(s[..|s| - 1]) else s
  }

  function Trim(s: string): string {
    TrimRight(TrimLeft(s))
  }

  /** The position of the first c, or the length of s. */
  function IndexOf(s: string, c: char): (n: nat)
    ensures n <= |s| && (n < |s| ==> s[n] == c)
    ensures forall k :: 0 <= k < n ==> s[k] != c
  {
    if s == "" || s[0] == c then 0 else 1 + IndexOf(s[1..], c)
  }

  /** The part before the first c, or all of s. */
  function Before(s: string, c: char): string {
    s[..IndexOf(s, c)]
  }

  /** A key and a value around the first '=', both trimmed; a line without either is skipped. */
  function ParseLine(line: string): Parse {
    var n := IndexOf(line, '=');
    if n == |line| then Nothing
    else
      var key, value := Trim(line[..n]), Trim(line[n + 1..]);
      if key == "" || value == "" then Nothing else Found(Pair(key, value))
  }

  /** Characters taken by one fgets with that much room: up to and including a newline. */
  function FgetsLen(text: string, room: nat): (n: nat)
    ensures n <= |text| && n <= room && (text != "" && room > 0 ==> n > 0)
    decreases room
  {
    if text == "" || room == 0 then 0
    else if text[0] == '\n' then 1
    else 1 + FgetsLen(text[1..], room - 1)
  }

  /** The chunk as a C string. */
  function CString(chunk: string): string {
    Before(chunk, NUL)
  }

  /** The C string without its newline and without a comment. */
  function Content(chunk: string): string {
    Before(Before(CString(chunk), '\n'), '#')
  }

  function AsSeq(p: Parse): seq<Pair> {
    if p.Found? then [p.pair] else []
  }

  /** The pairs found by the loop of loadFile, in order. */
  function Parsed(text: string): seq<Pair>
    decreases |text|
  {
    if text == "" then []
    else
      var n := FgetsLen(text, LINE_ROOM);
      AsSeq(ParseLine(Content(text[..n]))) + Parsed(text[n..])
  }

  /** map::insert: a key already present keeps its value. */
  function Insert(m: map<string, string>, p: Pair): map<string, string> {
    if p.key in m then m else m[p.key := p.value]
  }

  function Fill(m: map<string, string>, ps: seq<Pair>): map<string, string>
    decreases |ps|
  {
    if ps == [] then m else Fill(Insert(m, ps[0]), ps[1..])
  }

  function Load(text: string): map<string, string> {
    Fill(map[], Parsed(text))
  }

  // ---------- writing ----------

  function Body(p: Pair): string {
    p.key + "=" + p.value
  }

  /** snprintf of one pair, cut at the size of the buffer. */
  function Line(p: Pair): string {
    var s := Body(p) + "\n";
    if |s| <= PAIR_ROOM then s else s[..PAIR_ROOM]
  }

  function Written(ps: seq<Pair>): string
    decreases |ps|
  {
    if ps == [] then "" else Line(ps[0]) + Written(ps[1..])
  }

  // ---------- which pairs survive ----------

  predicate Trimmed(s: string) {
    s != "" && !Blank(s[0]) && !Blank(s[|s| - 1])
  }

  predicate Clean(p: Pair) {
    && Trimmed(p.key) && Trimmed(p.value)
    && '=' !in p.key && '#' !in p.key && '\n' !in p.key && NUL !in p.key
    && '#' !in p.value && '\n' !in p.value && NUL !in p.value
  }

  predicate AllClean(ps: seq<Pair>) {
    forall i :: 0 <= i < |ps| ==> Clean(ps[i])
  }

  /** Every pair fits its buffer together with its newline; the last one written may lose the newline. */
  predicate Fits(ps: seq<Pair>) {
    && (forall i :: 0 <= i < |ps| ==> |Body(ps[i])| <= 127)
    && (forall i :: 0 <= i < |ps| - 1 ==> |Body(ps[i])| + 1 <= 127)
  }

  predicate DistinctKeys(ps: seq<Pair>) {
    forall i, j :: 0 <= i < j < |ps| ==> ps[i].key != ps[j].key
  }

  // ---------- scanning ----------

  lemma {:induction false} IndexUnique(s: string, c: char, n: nat)
    requires n <= |s| && (n < |s| ==> s[n] == c) && forall k :: 0 <= k < n ==> s[k] != c
    ensures IndexOf(s, c) == n
  {
  }

  lemma {:induction false} BeforeCat(a: string, b: string, c: char)
    requires c !in a
    ensures IndexOf(a + b, c) == |a| + IndexOf(b, c) && Before(a + b, c) == a + Before(b, c)
  {
    var n := |a| + IndexOf(b, c);
    IndexUnique(a + b, c, n);
    assert (a + b)[..n] == a + b[..n - |a|];
  }

  lemma {:induction false} BeforeNone(a: string, c: char)
    requires c !in a
    ensures Before(a, c) == a
  {
    IndexUnique(a, c, |a|);
  }

  lemma {:induction false} TrimTrimmed(s: string)
    requires Trimmed(s)
    ensures Trim(s) == s
  {
  }

  lemma {:induction false} TrimLeftPart(s: string)
    ensures var n := |s| - |TrimLeft(s)|; 0 <= n && s[n..] == TrimLeft(s)
    ensures TrimLeft(s) != "" ==> !Blank(TrimLeft(s)[0])
  {
    if s != "" && Blank(s[0]) {
      TrimLeftPart(s[1..]);
    }
  }

  lemma {:induction false} TrimRightPart(s: string)
    ensures |TrimRight(s)| <= |s| && s[..|TrimRight(s)|] == TrimRight(s)
    ensures TrimRight(s) != "" ==> !Blank(TrimRight(s)[|TrimRight(s)| - 1])
  {
    if s != "" && Blank(s[|s| - 1]) {
      TrimRightPart(s[..|s| - 1]);
    }
  }

  lemma {:induction false} TrimRightKeeps(s: string, i: nat)
    requires i < |s| && !Blank(s[i])
    ensures |TrimRight(s)| > i
  {
    if Blank(s[|s| - 1]) {
      TrimRightKeeps(s[..|s| - 1], i);
    }
  }

  lemma {:induction false} PartOf(s: string, n: nat, m: nat)
    requires n + m <= |s|
    ensures forall c :: c !in s ==> c !in s[n..][..m]
  {
    assert s[n..][..m] == s[n..n + m];
  }

  /** What trimming leaves is trimmed, and made of characters of s. */
  lemma {:induction false} TrimFacts(s: string)
    ensures |Trim(s)| <= |s| && (Trim(s) != "" ==> Trimmed(Trim(s)))
    ensures forall c :: c !in s ==> c !in Trim(s)
  {
    var left := TrimLeft(s);
    TrimLeftPart(s);
    TrimRightPart(left);
    PartOf(s, |s| - |left|, |Trim(s)|);
  }

  // ---------- whatever is loaded is clean ----------

  lemma {:induction false} ContentFacts(chunk: string)
    ensures |Content(chunk)| <= |Before(CString(chunk), '\n')|
    ensures '#' !in Content(chunk) && '\n' !in Content(chunk) && NUL !in Content(chunk)
  {
  }

  lemma {:induction false} ParsedPair(line: string)
    requires '#' !in line && '\n' !in line && NUL !in line && ParseLine(line).Found?
    ensures var p := ParseLine(line).pair; Clean(p) && |Body(p)| <= |line|
  {
    var n := IndexOf(line, '=');
    TrimFacts(line[..n]);
    TrimFacts(line[n + 1..]);
  }

  /** The text that survives in the pairs read is no longer than the text without its newlines. */
  function Ink(text: string): nat {
    if text == "" then 0 else (if text[0] == '\n' then 0 else 1) + Ink(text[1..])
  }

  function Weight(ps: seq<Pair>): nat {
    if ps == [] then 0 else |Body(ps[0])| + Weight(ps[1..])
  }

  lemma {:induction false} InkCat(a: string, b: string)
    ensures Ink(a + b) == Ink(a) + Ink(b)
  {
    if a == "" {
      assert a + b == b;
    } else {
      InkCat(a[1..], b);
      assert (a + b)[1..] == a[1..] + b;
    }
  }

  lemma {:induction false} BeforeInk(s: string)
    ensures |Before(s, '\n')| <= Ink(s)
  {
    if s != "" && s[0] != '\n' {
      BeforeInk(s[1..]);
    }
  }

  lemma {:induction false} SplitAt(text: string, n: nat)
    requires n <= |text|
    ensures text == text[..n] + text[n..]
  {
  }

  lemma {:induction false} ChunkInk(chunk: string)
    ensures |Before(CString(chunk), '\n')| <= Ink(chunk)
  {
    var n := IndexOf(chunk, NUL);
    BeforeInk(CString(chunk));
    InkCat(chunk[..n], chunk[n..]);
    SplitAt(chunk, n);
  }

  lemma {:induction false} FirstChunk(text: string, chunk: string, rest: string)
    requires text == chunk + rest && |chunk| == FgetsLen(text, LINE_ROOM) > 0
    ensures Parsed(text) == AsSeq(ParseLine(Content(chunk))) + Parsed(rest)
  {
    assert text[..|chunk|] == chunk && text[|chunk|..] == rest;
  }

  lemma {:induction false} FirstPair(p: Pair, ps: seq<Pair>)
    ensures Weight([p] + ps) == |Body(p)| + Weight(ps)
    ensures Clean(p) && AllClean(ps) ==> AllClean([p] + ps)
  {
    assert ([p] + ps)[1..] == ps;
  }

  lemma {:induction false} ParsedCons(text: string, chunk: string, rest: string, ps: seq<Pair>)
    requires AllClean(ps) && Weight(ps) <= Ink(rest) && text == chunk + rest
    ensures var qs := AsSeq(ParseLine(Content(chunk))) + ps; AllClean(qs) && Weight(qs) <= Ink(text)
  {
    var line := Content(chunk);
    ContentFacts(chunk);
    ChunkInk(chunk);
    InkCat(chunk, rest);
    if ParseLine(line).Found? {
      ParsedPair(line);
      FirstPair(ParseLine(line).pair, ps);
    } else {
      assert [] + ps == ps;
    }
  }

  lemma {:induction false} ParsedClean(text: string)
    ensures AllClean(Parsed(text)) && Weight(Parsed(text)) <= Ink(text)
    decreases |text|
  {
    if text != "" {
      var n := FgetsLen(text, LINE_ROOM);
      var chunk, rest := text[..n], text[n..];
      ParsedClean(rest);
      SplitAt(text, n);
      ParsedCons(text, chunk, rest, Parsed(rest));
      FirstChunk(text, chunk, rest);
    }
  }

  // ---------- filling the map ----------

  lemma {:induction false} FillKeeps(m: map<string, string>, ps: seq<Pair>, k: string)
    requires k in m
    ensures k in Fill(m, ps) && Fill(m, ps)[k] == m[k]
    decreases |ps|
  {
    if ps != [] {
      FillKeeps(Insert(m, ps[0]), ps[1..], k);
    }
  }

  lemma {:induction false} FillFrom(m: map<string, string>, ps: seq<Pair>, k: string)
    requires k in Fill(m, ps) && k !in m
    ensures Pair(k, Fill(m, ps)[k]) in ps
    decreases |ps|
  {
    if ps[0].key == k {
      FillKeeps(Insert(m, ps[0]), ps[1..], k);
    } else {
      FillFrom(Insert(m, ps[0]), ps[1..], k);
    }
  }

  lemma {:induction false} FillHas(m: map<string, string>, ps: seq<Pair>, i: nat)
    requires i < |ps| && (forall j :: 0 <= j < i ==> ps[j].key != ps[i].key) && ps[i].key !in m
    ensures ps[i].key in Fill(m, ps) && Fill(m, ps)[ps[i].key] == ps[i].value
    decreases |ps|
  {
    if i == 0 {
      FillKeeps(Insert(m, ps[0]), ps[1..], ps[0].key);
    } else {
      FillHas(Insert(m, ps[0]), ps[1..], i - 1);
    }
  }

  /**
   * No chunk begins with a terminator. The loader looks at the last character of the C string it has
   * read without asking whether there is one.
   */
  predicate Loadable(text: string)
    decreases |text|
  {
    text == "" || (text[0] != NUL && Loadable(text[FgetsLen(text, LINE_ROOM)..]))
  }

  /** The first value of a key counts. */
  lemma {:induction false} FirstWins(text: string, i: nat)
    requires i < |Parsed(text)| && forall j :: 0 <= j < i ==> Parsed(text)[j].key != Parsed(text)[i].key
    ensures var p := Parsed(text)[i]; p.key in Load(text) && Load(text)[p.key] == p.value
  {
    FillHas(map[], Parsed(text), i);
  }

  predicate AllBlank(s: string) {
    forall i :: 0 <= i < |s| ==> s[i] in " \t\r"
  }

  lemma {:induction false} TrimLeftBlank(a: string, s: string)
    requires AllBlank(a) && (s == "" || !Blank(s[0]))
    ensures TrimLeft(a + s) == s
  {
    if a == "" {
      assert a + s == s;
    } else {
      assert (a + s)[1..] == a[1..] + s;
      TrimLeftBlank(a[1..], s);
    }
  }

  lemma {:induction false} TrimRightBlank(s: string, b: string)
    requires AllBlank(b) && (s == "" || !Blank(s[|s| - 1]))
    ensures TrimRight(s + b) == s
  {
    if b == "" {
      assert s + b == s;
    } else {
      assert (s + b)[..|s + b| - 1] == s + b[..|b| - 1];
      TrimRightBlank(s, b[..|b| - 1]);
    }
  }

  /** Trimming takes off exactly the blanks at both ends. */
  lemma {:induction false} TrimExact(a: string, s: string, b: string)
    requires AllBlank(a) && AllBlank(b) && (if s == "" then b == "" else Trimmed(s))
    ensures Trim(a + (s + b)) == s
  {
    TrimLeftBlank(a, s + b);
    TrimRightBlank(s, b);
  }

  lemma {:induction false} FgetsStopsAt(text: string, room: nat)
    ensures var n := IndexOf(text, '\n');
            FgetsLen(text, room) == if n < |text| && n < room then n + 1 else if |text| < room then |text| else room
    decreases room
  {
    if text != "" && room > 0 && text[0] != '\n' {
      FgetsStopsAt(text[1..], room - 1);
    }
  }

  /** A read ends with the first newline, after 255 characters, or with the text. */
  lemma {:induction false} FgetsStops(text: string)
    ensures var n := IndexOf(text, '\n');
            FgetsLen(text, LINE_ROOM) == if n < |text| && n < 255 then n + 1 else if |text| < 255 then |text| else 255
  {
    FgetsStopsAt(text, LINE_ROOM);
  }

  /** A text without terminators can be loaded. */
  lemma {:induction false} NulFreeLoads(text: string)
    requires NUL !in text
    ensures Loadable(text)
    decreases |text|
  {
    if text != "" {
      assert text[0] in text;
      NulFreeLoads(text[FgetsLen(text, LINE_ROOM)..]);
    }
  }

  /** Keys and values made from C strings. */
  predicate NulFree(ps: seq<Pair>) {
    forall i :: 0 <= i < |ps| ==> NUL !in ps[i].key && NUL !in ps[i].value
  }

  lemma {:induction false} LineNulFree(p: Pair)
    requires NUL !in p.key && NUL !in p.value
    ensures NUL !in Line(p)
  {
  }

  lemma {:induction false} NulFreeRest(ps: seq<Pair>)
    requires NulFree(ps) && ps != []
    ensures NulFree(ps[1..])
  {
    forall i | 0 <= i < |ps| - 1 ensures NUL !in ps[1..][i].key && NUL !in ps[1..][i].value {
      assert ps[1..][i] == ps[i + 1];
    }
  }

  /** Whatever is written of such pairs can be loaded. */
  lemma {:induction false} WrittenLoads(ps: seq<Pair>)
    requires NulFree(ps)
    ensures NUL !in Written(ps) && Loadable(Written(ps))
    decreases |ps|
  {
    if ps != [] {
      LineNulFree(ps[0]);
      NulFreeRest(ps);
      WrittenLoads(ps[1..]);
    }
    NulFreeLoads(Written(ps));
  }

  /** Every loaded pair is clean, whatever the text. */
  lemma {:induction false} LoadedIsClean(text: string, k: string)
    requires k in Load(text)
    ensures Clean(Pair(k, Load(text)[k]))
  {
    ParsedClean(text);
    FillFrom(map[], Parsed(text), k);
  }

  // ---------- reading what was written ----------

  lemma {:induction false} FgetsCat(a: string, b: string, room: nat)
    requires '\n' !in a && |a| <= room
    ensures FgetsLen(a + b, room) == |a| + FgetsLen(b, room - |a|)
    decreases room
  {
    if a == "" {
      assert a + b == b;
    } else {
      assert (a + b)[0] == a[0] && a[0] in a;
      FgetsCat(a[1..], b, room - 1);
      assert (a + b)[1..] == a[1..] + b;
    }
  }

  lemma {:induction false} BodyHas(p: Pair)
    requires Clean(p)
    ensures '\n' !in Body(p) && '#' !in Body(p) && NUL !in Body(p) && |Body(p)| == |p.key| + 1 + |p.value|
  {
  }

  lemma {:induction false} KeyEnds(p: Pair, more: string)
    requires Clean(p)
    ensures var line, n := Body(p) + more, |p.key|;
            IndexOf(line, '=') == n < |line| && line[..n] == p.key && line[n + 1..] == p.value + more
  {
    IndexUnique(Body(p) + more, '=', |p.key|);
  }

  lemma {:induction false} ValueStays(value: string, more: string)
    requires Trimmed(value)
    ensures Trim(value + more) == TrimRight(value + more) != ""
  {
    assert (value + more)[0] == value[0];
    TrimRightKeeps(value + more, 0);
  }

  lemma {:induction false} ParseBody(p: Pair, more: string)
    requires Clean(p)
    ensures ParseLine(Body(p) + more) == Found(Pair(p.key, TrimRight(p.value + more)))
  {
    KeyEnds(p, more);
    TrimTrimmed(p.key);
    ValueStays(p.value, more);
  }

  lemma {:induction false} ParseWhole(p: Pair)
    requires Clean(p)
    ensures ParseLine(Body(p)) == Found(p)
  {
    ParseBody(p, "");
    assert Body(p) + "" == Body(p) && p.value + "" == p.value;
    TrimTrimmed(p.value);
  }

  /** A pair whose line kept its newline is read back, and reading goes on behind it. */
  lemma {:induction false} ReadLine(p: Pair, rest: string)
    requires Clean(p) && |Body(p)| + 1 <= PAIR_ROOM
    ensures Parsed(Line(p) + rest) == [p] + Parsed(rest)
  {
    var body, text := Body(p), Line(p) + rest;
    BodyHas(p);
    assert text == body + ("\n" + rest) == body + "\n" + rest;
    FgetsCat(body, "\n" + rest, LINE_ROOM);
    FirstChunk(text, body + "\n", rest);
    BeforeCat(body, "\n", '\n');
    assert body + "" == body;
    BeforeNone(body, '#');
    BeforeNone(body + "\n", NUL);
    ParseWhole(p);
  }

  /** A last line without its newline is read back too. */
  lemma {:induction false} ReadLastLine(p: Pair)
    requires Clean(p) && |Body(p)| == PAIR_ROOM
    ensures Parsed(Line(p)) == [p]
  {
    var body := Body(p);
    BodyHas(p);
    assert Line(p) == body && body + "" == body;
    FgetsCat(body, "", LINE_ROOM);
    FirstChunk(body, body, "");
    BeforeNone(body, NUL);
    BeforeNone(body, '\n');
    BeforeNone(body, '#');
    ParseWhole(p);
    assert [p] + [] == [p];
  }

  lemma {:induction false} WrittenLast(ps: seq<Pair>)
    requires |ps| == 1
    ensures Written(ps) == Line(ps[0]) && ps == [ps[0]]
  {
    assert Line(ps[0]) + "" == Line(ps[0]);
  }

  lemma {:induction false} HeadAndRest(ps: seq<Pair>)
    requires ps != []
    ensures [ps[0]] + ps[1..] == ps
  {
  }

  lemma {:induction false} ReadWritten(ps: seq<Pair>)
    requires AllClean(ps) && Fits(ps)
    ensures Parsed(Written(ps)) == ps
    decreases |ps|
  {
    if ps != [] {
      var p, rest := ps[0], ps[1..];
      if |Body(p)| + 1 <= PAIR_ROOM {
        ReadWritten(rest);
        ReadLine(p, Written(rest));
        HeadAndRest(ps);
      } else {
        WrittenLast(ps);
        ReadLastLine(p);
      }
    }
  }

  // ---------- when a pair does not survive ----------

  lemma {:induction false} WeightMember(ps: seq<Pair>, j: nat)
    requires j < |ps|
    ensures Weight(ps) == |Body(ps[j])| + Weight(ps[..j] + ps[j + 1..])
  {
    if j == 0 {
      assert ps[..j] + ps[j + 1..] == ps[1..];
    } else {
      WeightMember(ps[1..], j - 1);
      assert (ps[..j] + ps[j + 1..])[1..] == ps[1..][..j - 1] + ps[1..][j..];
    }
  }

  lemma {:induction false} StillIn(qs: seq<Pair>, j: nat, p: Pair)
    requires j < |qs| && p in qs && p != qs[j]
    ensures p in qs[..j] + qs[j + 1..]
  {
    var i :| 0 <= i < |qs| && qs[i] == p;
    assert (qs[..j] + qs[j + 1..])[if i < j then i else i - 1] == p;
  }

  /** Pairs of distinct keys that all occur among others weigh no more. */
  lemma {:induction false} WeightSub(ps: seq<Pair>, qs: seq<Pair>)
    requires DistinctKeys(ps) && forall i :: 0 <= i < |ps| ==> ps[i] in qs
    ensures Weight(ps) <= Weight(qs)
    decreases |ps|
  {
    if ps != [] {
      var p := ps[0];
      var j :| 0 <= j < |qs| && qs[j] == p;
      var others := qs[..j] + qs[j + 1..];
      forall i | 0 <= i < |ps| - 1 ensures ps[1..][i] in others {
        StillIn(qs, j, ps[i + 1]);
      }
      WeightSub(ps[1..], others);
      WeightMember(qs, j);
    }
  }

  lemma {:induction false} InkAll(s: string)
    ensures Ink(s) <= |s| && ('\n' !in s ==> Ink(s) == |s|)
  {
    if s != "" {
      InkAll(s[1..]);
    }
  }

  lemma {:induction false} LineInk(p: Pair)
    requires Clean(p)
    ensures Ink(Line(p)) == if |Body(p)| <= PAIR_ROOM then |Body(p)| else PAIR_ROOM
  {
    var body := Body(p);
    BodyHas(p);
    InkAll(body);
    InkCat(body, "\n");
    if |body| >= PAIR_ROOM {
      assert Line(p) == body[..PAIR_ROOM];
      InkAll(body[..PAIR_ROOM]);
    }
  }

  lemma {:induction false} FirstAndRest(ps: seq<Pair>)
    requires ps != [] && |Body(ps[0])| <= PAIR_ROOM
    requires forall i :: 0 <= i < |ps[1..]| ==> |Body(ps[1..][i])| <= PAIR_ROOM
    ensures forall i :: 0 <= i < |ps| ==> |Body(ps[i])| <= PAIR_ROOM
  {
    forall i | 0 <= i < |ps| ensures |Body(ps[i])| <= PAIR_ROOM {
      assert i > 0 ==> ps[i] == ps[1..][i - 1];
    }
  }

  /** Writing keeps all the ink only if no pair is longer than the buffer. */
  lemma {:induction false} InkOfWritten(ps: seq<Pair>)
    requires AllClean(ps)
    ensures Ink(Written(ps)) <= Weight(ps)
    ensures Weight(ps) <= Ink(Written(ps)) ==> forall i :: 0 <= i < |ps| ==> |Body(ps[i])| <= PAIR_ROOM
    decreases |ps|
  {
    if ps != [] {
      LineInk(ps[0]);
      InkOfWritten(ps[1..]);
      InkCat(Line(ps[0]), Written(ps[1..]));
      if Weight(ps) <= Ink(Written(ps)) {
        FirstAndRest(ps);
      }
    }
  }

  lemma {:induction false} WrittenStarts(ps: seq<Pair>)
    requires AllClean(ps) && ps != []
    ensures Written(ps) != "" && Written(ps)[0] == ps[0].key[0]
  {
    assert Clean(ps[0]);
  }

  lemma {:induction false} SplitTail(a: string, b: string, n: nat)
    requires n <= |b|
    ensures a + b == a + b[..n] + b[n..]
  {
  }

  lemma {:induction false} SwallowedContent(p: Pair, chunk: string)
    requires Clean(p) && chunk != "" && chunk[0] != '\n' && chunk[0] != '#' && chunk[0] != NUL
    ensures Content(Body(p) + chunk) == Body(p) + Content(chunk)
    ensures Content(chunk) != "" && Content(chunk)[0] == chunk[0]
  {
    BodyHas(p);
    BeforeCat(Body(p), chunk, NUL);
    BeforeCat(Body(p), CString(chunk), '\n');
    BeforeCat(Body(p), Before(CString(chunk), '\n'), '#');
  }

  lemma {:induction false} LongerValue(p: Pair, more: string)
    requires Clean(p) && more != "" && !Blank(more[0])
    ensures var q := ParseLine(Body(p) + more); q.Found? && q.pair.key == p.key && |q.pair.value| > |p.value|
  {
    ParseBody(p, more);
    assert (p.value + more)[|p.value|] == more[0];
    TrimRightKeeps(p.value + more, |p.value|);
  }

  /** A line that lost its newline swallows the next one: the key is read with a longer value. */
  lemma {:induction false} Swallowed(p: Pair, rest: string)
    requires Clean(p) && |Body(p)| == PAIR_ROOM
    requires rest != "" && !Blank(rest[0]) && rest[0] != '\n' && rest[0] != '#' && rest[0] != NUL
    ensures var qs := Parsed(Line(p) + rest); qs != [] && qs[0].key == p.key && qs[0].value != p.value
  {
    var body, text := Body(p), Line(p) + rest;
    BodyHas(p);
    assert text == body + rest;
    FgetsCat(body, rest, LINE_ROOM);
    var n := FgetsLen(rest, LINE_ROOM - |body|);
    var chunk := body + rest[..n];
    SplitTail(body, rest, n);
    SwallowedContent(p, rest[..n]);
    LongerValue(p, Content(rest[..n]));
    FirstChunk(text, chunk, rest[n..]);
  }

  lemma {:induction false} FillFirst(m: map<string, string>, qs: seq<Pair>)
    requires qs != [] && qs[0].key !in m
    ensures qs[0].key in Fill(m, qs) && Fill(m, qs)[qs[0].key] == qs[0].value
  {
    FillKeeps(Insert(m, qs[0]), qs[1..], qs[0].key);
  }

  lemma {:induction false} AllCleanRest(ps: seq<Pair>)
    requires AllClean(ps) && ps != []
    ensures AllClean(ps[1..])
  {
    forall i | 0 <= i < |ps| - 1 ensures Clean(ps[1..][i]) {
      assert ps[1..][i] == ps[i + 1];
    }
  }

  lemma {:induction false} LostHead(m: map<string, string>, ps: seq<Pair>)
    requires AllClean(ps) && DistinctKeys(ps) && ps != [] && ps[0].key !in m
    requires !Fits(ps) && (forall i :: 0 <= i < |ps| ==> |Body(ps[i])| <= PAIR_ROOM) && |Body(ps[0])| == PAIR_ROOM
    ensures Fill(m, Parsed(Written(ps))) != Fill(m, ps)
  {
    var rest := ps[1..];
    assert rest != [] by {
      if rest == [] {
        assert Fits(ps);
      }
    }
    assert Clean(ps[0]) && Clean(ps[1]) && rest[0] == ps[1];
    AllCleanRest(ps);
    WrittenStarts(rest);
    assert rest[0].key[0] in rest[0].key;
    Swallowed(ps[0], Written(rest));
    FillFirst(m, Parsed(Written(ps)));
    FillHas(m, ps, 0);
  }

  lemma {:induction false} RestDoesNotFit(ps: seq<Pair>)
    requires ps != [] && !Fits(ps) && |Body(ps[0])| + 1 <= PAIR_ROOM
    ensures !Fits(ps[1..])
  {
    if Fits(ps[1..]) {
      forall i | 0 <= i < |ps| ensures |Body(ps[i])| <= PAIR_ROOM && (i < |ps| - 1 ==> |Body(ps[i])| + 1 <= 127) {
        assert i > 0 ==> ps[i] == ps[1..][i - 1];
      }
      assert Fits(ps);
    }
  }

  lemma {:induction false} LostNewline(m: map<string, string>, ps: seq<Pair>)
    requires AllClean(ps) && DistinctKeys(ps) && (forall i :: 0 <= i < |ps| ==> ps[i].key !in m)
    requires !Fits(ps) && forall i :: 0 <= i < |ps| ==> |Body(ps[i])| <= PAIR_ROOM
    ensures Fill(m, Parsed(Written(ps))) != Fill(m, ps)
    decreases |ps|
  {
    var p, rest := ps[0], ps[1..];
    assert Clean(p) && |Body(p)| <= PAIR_ROOM;
    if |Body(p)| + 1 <= PAIR_ROOM {
      ReadLine(p, Written(rest));
      assert ([p] + Parsed(Written(rest)))[1..] == Parsed(Written(rest));
      RestDoesNotFit(ps);
      LostNewline(Insert(m, p), rest);
    } else {
      LostHead(m, ps);
    }
  }

  /**
   * For every map, written in whatever order: reading the file gives the same map if and only if
   * all its pairs are clean, and every pair fits into 127 characters, with its newline unless it is
   * the last one written.
   */
  lemma {:induction false} RoundTripIff(ps: seq<Pair>)
    requires DistinctKeys(ps)
    ensures Load(Written(ps)) == Fill(map[], ps) <==> AllClean(ps) && Fits(ps)
  {
    if AllClean(ps) && Fits(ps) {
      ReadWritten(ps);
    } else if Load(Written(ps)) == Fill(map[], ps) {
      forall i | 0 <= i < |ps| ensures Clean(ps[i]) && ps[i] in Parsed(Written(ps)) {
        FillHas(map[], ps, i);
        LoadedIsClean(Written(ps), ps[i].key);
        FillFrom(map[], Parsed(Written(ps)), ps[i].key);
      }
      WeightSub(ps, Parsed(Written(ps)));
      ParsedClean(Written(ps));
      InkOfWritten(ps);
      LostNewline(map[], ps);
    }
  }

  /** A value with the comment sign loses its end. */
  lemma {:induction false} CommentLost()
    ensures Load(Written([Pair("a", "b#c")])) != Fill(map[], [Pair("a", "b#c")])
  {
    var ps := [Pair("a", "b#c")];
    assert ps[0].value[1] == '#' && !Clean(ps[0]);
    RoundTripIff(ps);
  }
}
