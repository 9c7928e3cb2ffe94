/**
 * The hexadecimal dump of the logger: a chunked printer into a fixed character buffer,
 * shown equal to one numbered line per 32 bytes, from which the bytes can be read back.
 * Text is a list of characters, so that appending and reading are equations between
 * constructors; the character buffer and the log line stay an array and a string.
 */
module HexDump {
  newtype Byte = b: int | 0 <= b < 256

  datatype Text = End | Char(c: char, rest: Text)

  const NUL: char := '\0'
  const PRINTSIZE := 512
  const BUFSIZE := PRINTSIZE * 3 + 8
  const INT_LIMIT := 0x8000_0000    // row numbers are C ints

  // ---------- text ----------

  function One(c: char): Text {
    Char(c, End)
  }

  function Cat(a: Text, b: Text): Text {
    match a
    case End => b
    case Char(c, rest) => Char(c, Cat(rest, b))
  }

  function Len(t: Text): nat {
    match t
    case End => 0
    case Char(_, rest) => 1 + Len(rest)
  }

  function Chars(t: Text): string {
    match t
    case End => ""
    case Char(c, rest) => [c] + Chars(rest)
  }

  function Parse(s: string): Text {
    if |s| == 0 then End else Char(s[0], Parse(s[1..]))
  }

  /** No character of the text is the terminator. */
  predicate NoNul(t: Text) {
    match t
    case End => true
    case Char(c, rest) => c != NUL && NoNul(rest)
  }

  predicate NoSpace(t: Text) {
    match t
    case End => true
    case Char(c, rest) => c != ' ' && NoSpace(rest)
  }

  lemma {:induction false} CatAssoc(a: Text, b: Text, c: Text)
    ensures Cat(a, Cat(b, c)) == Cat(Cat(a, b), c)
  {
    match a
    case End =>
    case Char(_, rest) => CatAssoc(rest, b, c);
  }

  lemma {:induction false} CatEnd(a: Text)
    ensures Cat(a, End) == a
  {
    match a
    case End =>
    case Char(_, rest) => CatEnd(rest);
  }

  lemma {:induction false} CatLen(a: Text, b: Text)
    ensures Len(Cat(a, b)) == Len(a) + Len(b)
    ensures NoNul(a) && NoNul(b) ==> NoNul(Cat(a, b))
    ensures NoSpace(a) && NoSpace(b) ==> NoSpace(Cat(a, b))
  {
    match a
    case End =>
    case Char(_, rest) => CatLen(rest, b);
  }

  lemma {:induction false} CatChars(a: Text, b: Text)
    ensures Chars(Cat(a, b)) == Chars(a) + Chars(b)
  {
    match a
    case End =>
    case Char(c, rest) =>
      CatChars(rest, b);
      assert [c] + (Chars(rest) + Chars(b)) == [c] + Chars(rest) + Chars(b);
  }

  lemma {:induction false} ParseChars(t: Text)
    ensures Parse(Chars(t)) == t
  {
    match t
    case End =>
    case Char(c, rest) =>
      ParseChars(rest);
      assert ([c] + Chars(rest))[1..] == Chars(rest);
  }

  // ---------- numbers and bytes as text ----------

  /** The character at position n of 0123456789abcdef: '0' is 48, 'a' is 97. */
  function Digit(n: nat): char
    requires n < 16
  {
    (if n < 10 then 48 + n else 87 + n) as char
  }

  function HexByte(b: Byte): Text {
    Char(Digit((b / 16) as nat), Char(Digit((b % 16) as nat), End))
  }

  /** Decimal digits of n, at least width of them. */
  function Padded(n: nat, width: nat): Text
    decreases n, width
  {
    if n == 0 && width == 0 then End
    else Cat(Padded(n / 10, if width == 0 then 0 else width - 1), One(Digit(n % 10)))
  }

  /** The printf format %06u. */
  function Number(n: nat): Text {
    Padded(n, 6)
  }

  // ---------- the specification: numbered lines ----------

  /** The bytes at positions lo to hi, two digits each. */
  function Hex(bytes: seq<Byte>, lo: nat, hi: nat): Text
    requires lo <= hi <= |bytes|
    decreases hi - lo
  {
    if lo == hi then End else Cat(HexByte(bytes[lo]), Hex(bytes, lo + 1, hi))
  }

  /** One or two groups of up to sixteen bytes, each after a space. */
  function Groups(bytes: seq<Byte>, lo: nat, hi: nat): Text
    requires lo <= hi <= |bytes|
  {
    if hi <= lo + 16 then Char(' ', Hex(bytes, lo, hi))
    else Cat(Char(' ', Hex(bytes, lo, lo + 16)), Char(' ', Hex(bytes, lo + 16, hi)))
  }

  function RowHead(row: nat): Text {
    Cat(Number(row), One(' '))
  }

  /** Row number, a space, the groups. */
  function Row(row: nat, bytes: seq<Byte>, lo: nat, hi: nat): Text
    requires lo <= hi <= |bytes|
  {
    Cat(RowHead(row), Groups(bytes, lo, hi))
  }

  function Line(row: nat, bytes: seq<Byte>, lo: nat, hi: nat): Text
    requires lo <= hi <= |bytes|
  {
    Cat(Row(row, bytes, lo, hi), One('\n'))
  }

  /** The bytes at positions lo to hi, thirty-two to a line, lines numbered from row. */
  function Dump(bytes: seq<Byte>, lo: nat, hi: nat, row: nat): Text
    requires lo <= hi <= |bytes|
    decreases hi - lo
  {
    if lo == hi then End
    else if hi <= lo + 32 then Line(row, bytes, lo, hi)
    else Cat(Line(row, bytes, lo, lo + 32), Dump(bytes, lo + 32, hi, row + 1))
  }

  lemma {:induction false} OneRowFirst(bytes: seq<Byte>, lo: nat, hi: nat, row: nat)
    requires lo + 32 < hi <= |bytes|
    ensures Dump(bytes, lo, hi, row) == Cat(Dump(bytes, lo, lo + 32, row), Dump(bytes, lo + 32, hi, row + 1))
  {
  }

  /** Dumping in chunks of whole rows, with the row number carried along, changes nothing. */
  lemma {:induction false} DumpChunks(bytes: seq<Byte>, lo: nat, mid: nat, hi: nat, row: nat, end: nat)
    requires lo <= mid < hi <= |bytes| && row <= end && mid - lo == 32 * (end - row)
    ensures Dump(bytes, lo, hi, row) == Cat(Dump(bytes, lo, mid, row), Dump(bytes, mid, hi, end))
    decreases end - row
  {
    if row < end {
      OneRowFirst(bytes, lo, hi, row);
      if row + 1 < end {
        OneRowFirst(bytes, lo, mid, row);
        DumpChunks(bytes, lo + 32, mid, hi, row + 1, end);
        CatAssoc(Dump(bytes, lo, lo + 32, row), Dump(bytes, lo + 32, mid, row + 1), Dump(bytes, mid, hi, end));
      }
    }
  }

  // ---------- reading a dump back ----------

  function DigitValue(c: char): (v: nat)
    ensures v < 16
  {
    if 48 <= c as int < 58 then c as int - 48 else if 97 <= c as int < 103 then c as int - 87 else 0
  }

  /** Skip the row number up to the first space; then pairs of digits, ignoring spaces, up to the newline. */
  function Undump(t: Text, inRow: bool): seq<Byte> {
    match t
    case End => []
    case Char(c, rest) =>
      if !inRow then Undump(rest, c == ' ')
      else if c == '\n' then Undump(rest, false)
      else if c == ' ' then Undump(rest, true)
      else
        match rest
        case End => []
        case Char(d, tail) => [(DigitValue(c) * 16 + DigitValue(d)) as Byte] + Undump(tail, true)
  }

  lemma {:induction false} DigitFacts(n: nat)
    requires n < 16
    ensures DigitValue(Digit(n)) == n && Digit(n) != ' ' && Digit(n) != '\n' && Digit(n) != NUL
    ensures Digit(n) == "0123456789abcdef"[n]
  {
  }

  lemma {:induction false} OneChar(c: char)
    ensures Len(One(c)) == 1 && (c != NUL ==> NoNul(One(c))) && (c != ' ' ==> NoSpace(One(c)))
  {
    assert Len(End) == 0;
  }

  lemma {:induction false} PaddedDigits(n: nat, width: nat)
    ensures NoSpace(Padded(n, width)) && NoNul(Padded(n, width))
    decreases n, width
  {
    if n > 0 || width > 0 {
      var w := if width == 0 then 0 else width - 1;
      PaddedDigits(n / 10, w);
      DigitFacts(n % 10);
      OneChar(Digit(n % 10));
      CatLen(Padded(n / 10, w), One(Digit(n % 10)));
    }
  }

  lemma {:induction false} TwoChars(b: Byte, rest: Text)
    ensures Cat(HexByte(b), rest) == Char(Digit((b / 16) as nat), Char(Digit((b % 16) as nat), rest))
    ensures Len(HexByte(b)) == 2
  {
    assert Len(One(Digit((b % 16) as nat))) == 1 by { OneChar(Digit((b % 16) as nat)); }
    assert Cat(One(Digit((b % 16) as nat)), rest) == Char(Digit((b % 16) as nat), rest);
  }

  lemma {:induction false} SkipNumber(digits: Text, rest: Text)
    requires NoSpace(digits)
    ensures Undump(Cat(digits, Char(' ', rest)), false) == Undump(rest, true)
  {
    match digits
    case End =>
    case Char(_, more) => SkipNumber(more, rest);
  }

  lemma {:induction false} ReadByte(b: Byte, rest: Text)
    ensures Undump(Cat(HexByte(b), rest), true) == [b] + Undump(rest, true)
  {
    DigitFacts((b / 16) as nat);
    DigitFacts((b % 16) as nat);
    TwoChars(b, rest);
  }

  lemma {:induction false} ReadHex(bytes: seq<Byte>, lo: nat, hi: nat, rest: Text)
    requires lo <= hi <= |bytes|
    ensures Undump(Cat(Hex(bytes, lo, hi), rest), true) == bytes[lo..hi] + Undump(rest, true)
    decreases hi - lo
  {
    if lo < hi {
      var later := Hex(bytes, lo + 1, hi);
      CatAssoc(HexByte(bytes[lo]), later, rest);
      ReadByte(bytes[lo], Cat(later, rest));
      ReadHex(bytes, lo + 1, hi, rest);
      assert bytes[lo..hi] == [bytes[lo]] + bytes[lo + 1..hi];
    }
  }

  lemma {:induction false} ReadGroups(bytes: seq<Byte>, lo: nat, hi: nat, rest: Text)
    requires lo <= hi <= |bytes|
    ensures Undump(Cat(Groups(bytes, lo, hi), rest), true) == bytes[lo..hi] + Undump(rest, true)
  {
    if hi <= lo + 16 {
      ReadHex(bytes, lo, hi, rest);
    } else {
      var second := Char(' ', Hex(bytes, lo + 16, hi));
      CatAssoc(Char(' ', Hex(bytes, lo, lo + 16)), second, rest);
      ReadHex(bytes, lo, lo + 16, Cat(second, rest));
      ReadHex(bytes, lo + 16, hi, rest);
      assert bytes[lo..lo + 16] + bytes[lo + 16..hi] == bytes[lo..hi];
    }
  }

  lemma {:induction false} ReadLine(row: nat, bytes: seq<Byte>, lo: nat, hi: nat, rest: Text)
    requires lo <= hi <= |bytes|
    ensures Undump(Cat(Line(row, bytes, lo, hi), rest), false) == bytes[lo..hi] + Undump(rest, false)
  {
    PaddedDigits(row, 6);
    var groups, tail := Groups(bytes, lo, hi), Char('\n', rest);
    CatAssoc(Row(row, bytes, lo, hi), One('\n'), rest);
    CatAssoc(RowHead(row), groups, tail);
    CatAssoc(Number(row), One(' '), Cat(groups, tail));
    SkipNumber(Number(row), Cat(groups, tail));
    ReadGroups(bytes, lo, hi, tail);
  }

  /** Reading back a dump recovers the bytes, whatever row it starts at. */
  lemma {:induction false} RoundTrip(bytes: seq<Byte>, lo: nat, hi: nat, row: nat)
    requires lo <= hi <= |bytes|
    ensures Undump(Dump(bytes, lo, hi, row), false) == bytes[lo..hi]
    decreases hi - lo
  {
    if lo < hi <= lo + 32 {
      ReadLine(row, bytes, lo, hi, End);
      CatEnd(Line(row, bytes, lo, hi));
    } else if lo < hi {
      ReadLine(row, bytes, lo, lo + 32, Dump(bytes, lo + 32, hi, row + 1));
      RoundTrip(bytes, lo + 32, hi, row + 1);
      assert bytes[lo..hi] == bytes[lo..lo + 32] + bytes[lo + 32..hi];
    }
  }

  // ---------- the row numbers ----------

  /** The decimal number that digits denote, after n. */
  function Decimal(digits: Text, n: nat): nat {
    match digits
    case End => n
    case Char(c, rest) => Decimal(rest, 10 * n + DigitValue(c))
  }

  lemma {:induction false} DecimalLast(digits: Text, c: char, n: nat)
    ensures Decimal(Cat(digits, One(c)), n) == 10 * Decimal(digits, n) + DigitValue(c)
  {
    match digits
    case End => assert Decimal(End, 10 * n + DigitValue(c)) == 10 * n + DigitValue(c);
    case Char(d, rest) => DecimalLast(rest, c, 10 * n + DigitValue(d));
  }

  /** A padded number denotes its number. */
  lemma {:induction false} PaddedValue(n: nat, width: nat)
    ensures Decimal(Padded(n, width), 0) == n
    decreases n, width
  {
    if n > 0 || width > 0 {
      var w := if width == 0 then 0 else width - 1;
      PaddedValue(n / 10, w);
      DigitFacts(n % 10);
      DecimalLast(Padded(n / 10, w), Digit(n % 10), 0);
    }
  }

  /** The number before the first space of every line. */
  function RowNumbers(t: Text, inRow: bool, n: nat): seq<nat> {
    match t
    case End => []
    case Char(c, rest) =>
      if inRow then RowNumbers(rest, c != '\n', 0)
      else if c == ' ' then [n] + RowNumbers(rest, true, 0)
      else RowNumbers(rest, false, 10 * n + DigitValue(c))
  }

  function CountUp(from: nat, count: nat): seq<nat>
    decreases count
  {
    if count == 0 then [] else [from] + CountUp(from + 1, count - 1)
  }

  predicate NoNewline(t: Text) {
    match t
    case End => true
    case Char(c, rest) => c != '\n' && NoNewline(rest)
  }

  lemma {:induction false} CatNoNewline(a: Text, b: Text)
    ensures NoNewline(a) && NoNewline(b) ==> NoNewline(Cat(a, b))
  {
    match a
    case End =>
    case Char(_, rest) => CatNoNewline(rest, b);
  }

  lemma {:induction false} HexOneLine(bytes: seq<Byte>, lo: nat, hi: nat)
    requires lo <= hi <= |bytes|
    ensures NoNewline(Hex(bytes, lo, hi))
    decreases hi - lo
  {
    if lo < hi {
      HexOneLine(bytes, lo + 1, hi);
      DigitFacts((bytes[lo] / 16) as nat);
      DigitFacts((bytes[lo] % 16) as nat);
      TwoChars(bytes[lo], Hex(bytes, lo + 1, hi));
    }
  }

  lemma {:induction false} GroupsOneLine(bytes: seq<Byte>, lo: nat, hi: nat)
    requires lo <= hi <= |bytes|
    ensures NoNewline(Groups(bytes, lo, hi))
  {
    if hi <= lo + 16 {
      HexOneLine(bytes, lo, hi);
    } else {
      HexOneLine(bytes, lo, lo + 16);
      HexOneLine(bytes, lo + 16, hi);
      CatNoNewline(Char(' ', Hex(bytes, lo, lo + 16)), Char(' ', Hex(bytes, lo + 16, hi)));
    }
  }

  lemma {:induction false} NumberRead(digits: Text, n: nat, rest: Text)
    requires NoSpace(digits)
    ensures RowNumbers(Cat(digits, Char(' ', rest)), false, n) == [Decimal(digits, n)] + RowNumbers(rest, true, 0)
  {
    match digits
    case End =>
    case Char(c, more) => NumberRead(more, 10 * n + DigitValue(c), rest);
  }

  lemma {:induction false} RowSkipped(t: Text, rest: Text)
    requires NoNewline(t)
    ensures RowNumbers(Cat(t, Char('\n', rest)), true, 0) == RowNumbers(rest, false, 0)
  {
    match t
    case End =>
    case Char(_, more) => RowSkipped(more, rest);
  }

  lemma {:induction false} LineNumber(row: nat, bytes: seq<Byte>, lo: nat, hi: nat, rest: Text)
    requires lo <= hi <= |bytes|
    ensures RowNumbers(Cat(Line(row, bytes, lo, hi), rest), false, 0) == [row] + RowNumbers(rest, false, 0)
  {
    var groups, tail := Groups(bytes, lo, hi), Char('\n', rest);
    CatAssoc(Row(row, bytes, lo, hi), One('\n'), rest);
    CatAssoc(RowHead(row), groups, tail);
    CatAssoc(Number(row), One(' '), Cat(groups, tail));
    PaddedDigits(row, 6);
    PaddedValue(row, 6);
    NumberRead(Number(row), 0, Cat(groups, tail));
    GroupsOneLine(bytes, lo, hi);
    RowSkipped(groups, rest);
  }

  /** Rows begun by n bytes. */
  function Rows(n: nat): nat {
    if n == 0 then 0 else if n <= 32 then 1 else 1 + Rows(n - 32)
  }

  /** The lines of a dump are numbered one after the other, one number for every thirty-two bytes begun. */
  lemma {:induction false} RowsNumbered(bytes: seq<Byte>, lo: nat, hi: nat, row: nat)
    requires lo <= hi <= |bytes|
    ensures RowNumbers(Dump(bytes, lo, hi, row), false, 0) == CountUp(row, Rows(hi - lo))
    decreases hi - lo
  {
    if lo < hi <= lo + 32 {
      LineNumber(row, bytes, lo, hi, End);
      CatEnd(Line(row, bytes, lo, hi));
      assert CountUp(row + 1, 0) == [];
    } else if lo < hi {
      LineNumber(row, bytes, lo, lo + 32, Dump(bytes, lo + 32, hi, row + 1));
      RowsNumbered(bytes, lo + 32, hi, row + 1);
    }
  }

  // ---------- what the printer has written after some bytes ----------

  /** A dump whose last line still lacks its newline. */
  function Printed(bytes: seq<Byte>, lo: nat, hi: nat, row: nat): Text
    requires lo <= hi <= |bytes|
    decreases hi - lo
  {
    if lo == hi then End
    else if hi <= lo + 32 then Row(row, bytes, lo, hi)
    else Cat(Line(row, bytes, lo, lo + 32), Printed(bytes, lo + 32, hi, row + 1))
  }

  /** What the printer writes between the text so far and the byte at position n. */
  function Separator(n: nat, row: nat): Text {
    if n == 0 then Cat(RowHead(row), One(' '))
    else if n == 16 then One(' ')
    else if n < 32 then End
    else if n == 32 then Char('\n', Separator(0, row + 1))
    else Separator(n - 32, row + 1)
  }

  /** The printer's text plus the final newline is the dump. */
  lemma {:induction false} PrintedIsDump(bytes: seq<Byte>, lo: nat, hi: nat, row: nat)
    requires lo < hi <= |bytes|
    ensures Cat(Printed(bytes, lo, hi, row), One('\n')) == Dump(bytes, lo, hi, row)
    decreases hi - lo
  {
    if hi > lo + 32 {
      PrintedIsDump(bytes, lo + 32, hi, row + 1);
      CatAssoc(Line(row, bytes, lo, lo + 32), Printed(bytes, lo + 32, hi, row + 1), One('\n'));
    }
  }

  lemma {:induction false} HexLast(bytes: seq<Byte>, lo: nat, hi: nat)
    requires lo <= hi < |bytes|
    ensures Hex(bytes, lo, hi + 1) == Cat(Hex(bytes, lo, hi), HexByte(bytes[hi]))
    decreases hi - lo
  {
    if lo == hi {
      CatEnd(HexByte(bytes[hi]));
    } else {
      HexLast(bytes, lo + 1, hi);
      CatAssoc(HexByte(bytes[lo]), Hex(bytes, lo + 1, hi), HexByte(bytes[hi]));
    }
  }

  /** A byte that begins no line: perhaps a space, then the two digits. */
  lemma {:induction false} GroupsLast(bytes: seq<Byte>, lo: nat, hi: nat)
    requires lo < hi < lo + 32 && hi < |bytes|
    ensures Groups(bytes, lo, hi + 1) ==
            Cat(Groups(bytes, lo, hi), Cat(if hi == lo + 16 then One(' ') else End, HexByte(bytes[hi])))
  {
    if hi < lo + 16 {
      HexLast(bytes, lo, hi);
    } else if hi == lo + 16 {
      HexLast(bytes, hi, hi);
    } else {
      HexLast(bytes, lo + 16, hi);
      CatAssoc(Char(' ', Hex(bytes, lo, lo + 16)), Char(' ', Hex(bytes, lo + 16, hi)), HexByte(bytes[hi]));
    }
  }

  /** One more byte appends its separator and its two digits. */
  lemma {:induction false} PrintedLast(bytes: seq<Byte>, lo: nat, hi: nat, row: nat)
    requires lo <= hi < |bytes|
    ensures Printed(bytes, lo, hi + 1, row) ==
            Cat(Printed(bytes, lo, hi, row), Cat(Separator(hi - lo, row), HexByte(bytes[hi])))
    decreases hi - lo
  {
    var more := Cat(Separator(hi - lo, row), HexByte(bytes[hi]));
    if hi == lo {
      HexLast(bytes, lo, hi);
      CatAssoc(RowHead(row), One(' '), HexByte(bytes[hi]));
    } else if hi < lo + 32 {
      GroupsLast(bytes, lo, hi);
      CatAssoc(RowHead(row), Groups(bytes, lo, hi), more);
    } else if hi == lo + 32 {
      PrintedLast(bytes, hi, hi, row + 1);
      CatAssoc(Row(row, bytes, lo, hi), One('\n'), Printed(bytes, hi, hi + 1, row + 1));
    } else {
      PrintedLast(bytes, lo + 32, hi, row + 1);
      CatAssoc(Line(row, bytes, lo, lo + 32), Printed(bytes, lo + 32, hi, row + 1), more);
    }
  }

  // ---------- how long the text is ----------

  /** n has at most k digits. */
  predicate Below(n: nat, k: nat) {
    n == 0 || (k > 0 && Below(n / 10, k - 1))
  }

  ghost predicate AllBelow(bound: nat, k: nat) {
    forall n: nat :: n < bound ==> Below(n, k)
  }

  lemma {:induction false} OneMoreDigit(bound: nat, k: nat)
    requires AllBelow(bound, k)
    ensures AllBelow(10 * bound, k + 1)
  {
    var more := k + 1;
    forall n: nat | n < 10 * bound ensures Below(n, more) {
      assert n / 10 < bound;
    }
  }

  lemma {:induction false} SixAndTenDigits()
    ensures AllBelow(1_000_000, 6) && AllBelow(10_000_000_000, 10)
  {
    OneMoreDigit(1, 0);
    OneMoreDigit(10, 1);
    OneMoreDigit(100, 2);
    OneMoreDigit(1_000, 3);
    OneMoreDigit(10_000, 4);
    OneMoreDigit(100_000, 5);
    OneMoreDigit(1_000_000, 6);
    OneMoreDigit(10_000_000, 7);
    OneMoreDigit(100_000_000, 8);
    OneMoreDigit(1_000_000_000, 9);
  }

  /** A row number of at most so many digits prints as at most so many, and at least the padding. */
  lemma {:induction false} PaddedWidth(n: nat, width: nat, most: nat)
    requires width <= most && Below(n, most)
    ensures width <= Len(Padded(n, width)) <= most
    decreases n, width
  {
    if n > 0 || width > 0 {
      var w := if width == 0 then 0 else width - 1;
      PaddedWidth(n / 10, w, most - 1);
      CatLen(Padded(n / 10, w), One(Digit(n % 10)));
    }
  }

  /** Row numbers of a C int have six to ten digits; below a million, exactly six. */
  lemma {:induction false} NumberWidth(k: nat)
    requires k < INT_LIMIT
    ensures 6 <= Len(Number(k)) <= 10
    ensures k < 1_000_000 ==> Len(Number(k)) == 6
  {
    SixAndTenDigits();
    PaddedWidth(k, 6, 10);
    if k < 1_000_000 {
      PaddedWidth(k, 6, 6);
    }
  }

  lemma {:induction false} HexSize(bytes: seq<Byte>, lo: nat, hi: nat)
    requires lo <= hi <= |bytes|
    ensures Len(Hex(bytes, lo, hi)) == 2 * (hi - lo)
    decreases hi - lo
  {
    if lo < hi {
      HexSize(bytes, lo + 1, hi);
      TwoChars(bytes[lo], Hex(bytes, lo + 1, hi));
      CatLen(HexByte(bytes[lo]), Hex(bytes, lo + 1, hi));
    }
  }

  lemma {:induction false} RowSize(row: nat, bytes: seq<Byte>, lo: nat, hi: nat)
    requires lo <= hi <= |bytes|
    ensures Len(Row(row, bytes, lo, hi)) == Len(Number(row)) + 2 * (hi - lo) + if hi <= lo + 16 then 2 else 3
  {
    CatLen(Number(row), One(' '));
    CatLen(RowHead(row), Groups(bytes, lo, hi));
    if hi <= lo + 16 {
      HexSize(bytes, lo, hi);
    } else {
      HexSize(bytes, lo, lo + 16);
      HexSize(bytes, lo + 16, hi);
      CatLen(Char(' ', Hex(bytes, lo, lo + 16)), Char(' ', Hex(bytes, lo + 16, hi)));
    }
  }

  /** Characters printed for n bytes when every row number has exactly w digits. */
  function Size(n: nat, w: nat): nat {
    if n == 0 then 0
    else if n <= 16 then w + 2 + 2 * n
    else if n <= 32 then w + 3 + 2 * n
    else w + 68 + Size(n - 32, w)
  }

  /** Row numbers of at most v digits bound the length, row numbers of exactly v digits give it. */
  lemma {:induction false} PrintedSize(bytes: seq<Byte>, lo: nat, hi: nat, row: nat, v: nat)
    requires lo <= hi <= |bytes|
    requires forall k :: row <= k < row + Rows(hi - lo) ==> Len(Number(k)) <= v
    ensures Len(Printed(bytes, lo, hi, row)) <= Size(hi - lo, v)
    ensures (forall k :: row <= k < row + Rows(hi - lo) ==> Len(Number(k)) == v) ==>
              Len(Printed(bytes, lo, hi, row)) == Size(hi - lo, v)
    decreases hi - lo
  {
    if lo < hi {
      assert Len(Number(row)) <= v;
      if hi <= lo + 32 {
        RowSize(row, bytes, lo, hi);
      } else {
        RowSize(row, bytes, lo, lo + 32);
        CatLen(Row(row, bytes, lo, lo + 32), One('\n'));
        CatLen(Line(row, bytes, lo, lo + 32), Printed(bytes, lo + 32, hi, row + 1));
        PrintedSize(bytes, lo + 32, hi, row + 1, v);
      }
    }
  }

  lemma {:induction false} SizeAtMost(n: nat, rows: nat)
    requires n <= 32 * rows
    ensures Size(n, 10) <= 78 * rows && Rows(n) <= rows
    decreases rows
  {
    if n > 32 {
      SizeAtMost(n - 32, rows - 1);
    }
  }

  lemma {:induction false} SizeOfRows(rows: nat)
    requires rows > 0
    ensures Size(32 * rows, 6) == 74 * rows - 1 && Rows(32 * rows) == rows
  {
    if rows > 1 {
      SizeOfRows(rows - 1);
      assert 32 * rows - 32 == 32 * (rows - 1);
    }
  }

  /** A chunk never fills its buffer: at most 1250 of the 1544 characters are written. */
  lemma {:induction false} ChunkFits(bytes: seq<Byte>, lo: nat, hi: nat, row: nat)
    requires lo <= hi <= |bytes| && hi <= lo + PRINTSIZE && row + Rows(hi - lo) <= INT_LIMIT
    ensures Len(Printed(bytes, lo, hi, row)) + 2 <= 1250
  {
    forall k | row <= k < row + Rows(hi - lo) ensures Len(Number(k)) <= 10 {
      NumberWidth(k);
    }
    PrintedSize(bytes, lo, hi, row, 10);
    SizeAtMost(hi - lo, 16);
  }

  /** A full chunk with six-digit row numbers writes exactly 1185. */
  lemma {:induction false} FullChunk(bytes: seq<Byte>, lo: nat, hi: nat, row: nat)
    requires lo <= hi <= |bytes| && hi == lo + PRINTSIZE && row + Rows(PRINTSIZE) <= 1_000_000
    ensures Len(Printed(bytes, lo, hi, row)) + 2 == 1185
  {
    forall k | row <= k < row + Rows(hi - lo) ensures Len(Number(k)) == 6 {
      NumberWidth(k);
    }
    PrintedSize(bytes, lo, hi, row, 6);
    SizeOfRows(16);
  }

  lemma {:induction false} RowsMonotone(n: nat, m: nat)
    requires n <= m
    ensures Rows(n) <= Rows(m)
    decreases n
  {
    if n > 32 {
      RowsMonotone(n - 32, m - 32);
    }
  }

  lemma {:induction false} RowsOfBytes(n: nat)
    ensures n <= 32 * Rows(n) < n + 32
  {
    if n > 32 {
      RowsOfBytes(n - 32);
    }
  }

  /** What the loop over a chunk writes for one byte, and that it fits. */
  lemma {:induction false} NextByte(bytes: seq<Byte>, lo: nat, hi: nat, n: nat, row: nat)
    requires lo + n < hi <= |bytes| && hi <= lo + PRINTSIZE && row + Rows(hi - lo) <= INT_LIMIT
    ensures Printed(bytes, lo, lo + n + 1, row) ==
            Cat(Cat(Printed(bytes, lo, lo + n, row), Separator(n, row)), HexByte(bytes[lo + n]))
    ensures Len(Printed(bytes, lo, lo + n + 1, row)) + 2 <= 1250
    ensures Len(Printed(bytes, lo, lo + n, row)) + Len(Separator(n, row)) + 2 <= 1250
  {
    var text := Printed(bytes, lo, lo + n, row);
    PrintedLast(bytes, lo, lo + n, row);
    RowsMonotone(n + 1, hi - lo);
    ChunkFits(bytes, lo, lo + n + 1, row);
    CatAssoc(text, Separator(n, row), HexByte(bytes[lo + n]));
    CatLen(text, Separator(n, row));
    CatLen(Cat(text, Separator(n, row)), HexByte(bytes[lo + n]));
    TwoChars(bytes[lo + n], End);
  }

  /** How the tests of the loop on the position relate to the separator and the row count. */
  lemma {:induction false} SeparatorCases(n: nat, row: nat)
    ensures n % 32 != 0 ==> Rows(n + 1) == Rows(n) && Separator(n, row) == if n % 16 == 0 then One(' ') else End
    ensures n % 32 == 0 ==> n % 16 == 0 && Rows(n + 1) == Rows(n) + 1
    ensures n % 32 == 0 && n == 0 ==> Separator(n, row) == Cat(RowHead(row + Rows(n)), One(' '))
    ensures n % 32 == 0 && n > 0 ==> Separator(n, row) == Char('\n', Cat(RowHead(row + Rows(n)), One(' ')))
  {
    if n > 32 {
      SeparatorCases(n - 32, row + 1);
    }
  }

  // ---------- the printer ----------

  /** From position i on, s holds the text followed by terminators only. */
  ghost predicate Holds(s: seq<char>, i: nat, t: Text)
    decreases t
  {
    match t
    case End => forall k :: i <= k < |s| ==> s[k] == NUL
    case Char(c, rest) => i < |s| && s[i] == c && c != NUL && Holds(s, i + 1, rest)
  }

  ghost predicate Filled(a: array<char>, t: Text)
    reads a
  {
    Holds(a[..], 0, t)
  }

  lemma {:induction false} HoldsNext(s: seq<char>, i: nat, t: Text, c: char)
    requires Holds(s, i, t) && i + Len(t) < |s| && c != NUL
    ensures Holds(s[i + Len(t) := c], i, Cat(t, One(c)))
    decreases t
  {
    match t
    case End => assert Holds(s[i := c], i + 1, End);
    case Char(_, rest) => HoldsNext(s, i + 1, rest, c);
  }

  lemma {:induction false} HoldsChars(s: seq<char>, i: nat, t: Text)
    requires Holds(s, i, t) && i <= |s|
    ensures i + Len(t) <= |s| && s[i..i + Len(t)] == Chars(t)
    decreases t
  {
    match t
    case End =>
    case Char(c, rest) =>
      HoldsChars(s, i + 1, rest);
      assert s[i..i + Len(t)] == [s[i]] + s[i + 1..i + 1 + Len(rest)];
  }

  /** szbuf[len++] = c. */
  method Put(a: array<char>, len: nat, c: char, ghost text: Text) returns (newLen: nat)
    requires Filled(a, text) && len == Len(text) < a.Length && c != NUL
    modifies a
    ensures newLen == len + 1 == Len(Cat(text, One(c))) && Filled(a, Cat(text, One(c)))
  {
    HoldsNext(a[..], 0, text, c);
    CatLen(text, One(c));
    ghost var was := a[..];
    a[len] := c;
    assert a[..] == was[len := c];
    newLen := len + 1;
  }

  /** The index of the first NUL. */
  method StrLen(a: array<char>, ghost text: Text) returns (n: nat)
    requires Filled(a, text) && Len(text) < a.Length
    ensures n == Len(text)
  {
    n := 0;
    ghost var rest := text;
    while a[n] != NUL
      invariant n + Len(rest) == Len(text) && Holds(a[..], n, rest)
      decreases rest
    {
      n, rest := n + 1, rest.rest;
    }
  }

  /** strcat: append s at the first NUL. */
  method StrCat(a: array<char>, s: Text, ghost text: Text)
    requires Filled(a, text) && Len(text) + Len(s) < a.Length && NoNul(s)
    modifies a
    ensures Filled(a, Cat(text, s))
  {
    var n := StrLen(a, text);
    var rest := s;
    ghost var done := text;
    while rest.Char?
      invariant n == Len(done) && n + Len(rest) < a.Length && NoNul(rest)
      invariant Filled(a, done) && Cat(done, rest) == Cat(text, s)
      decreases rest
    {
      CatAssoc(done, One(rest.c), rest.rest);
      n := Put(a, n, rest.c, done);
      done, rest := Cat(done, One(rest.c)), rest.rest;
    }
    CatEnd(done);
  }

  /** Newline if this is not the first row, then the row number and a space. */
  method StartRow(szbuf: array<char>, len: nat, index: nat, headlen: nat, ghost text: Text)
    returns (newLen: nat, newHeadlen: nat)
    requires Filled(szbuf, text) && len == Len(text) && len + Len(Number(index)) + 2 < szbuf.Length
    modifies szbuf
    ensures newHeadlen == Len(RowHead(index)) > 0
    ensures var t := Cat(if headlen == 0 then text else Cat(text, One('\n')), RowHead(index));
            Filled(szbuf, t) && newLen == Len(t)
  {
    newLen := len;
    ghost var t := text;
    if headlen != 0 {
      newLen := Put(szbuf, newLen, '\n', t);
      t := Cat(t, One('\n'));
    }
    var szhead := RowHead(index);
    newHeadlen := Len(szhead);
    PaddedDigits(index, 6);
    CatLen(Number(index), One(' '));
    CatLen(t, szhead);
    StrCat(szbuf, szhead, t);
    newLen := newLen + newHeadlen;
  }

  /** Everything the loop writes before the byte at position lsize of a chunk whose first row is row. */
  method PutSeparator(szbuf: array<char>, len: nat, lsize: nat, index: nat, headlen: nat, ghost text: Text, ghost row: nat)
    returns (newLen: nat, newIndex: nat, newHeadlen: nat)
    requires Filled(szbuf, text) && len == Len(text) && len + Len(Separator(lsize, row)) + 2 < szbuf.Length
    requires index == row + Rows(lsize) && (headlen == 0 <==> lsize == 0)
    modifies szbuf
    ensures newIndex == row + Rows(lsize + 1) && newHeadlen != 0
    ensures var t := Cat(text, Separator(lsize, row)); Filled(szbuf, t) && newLen == Len(t)
  {
    newLen, newIndex, newHeadlen := len, index, headlen;
    ghost var t := text;
    SeparatorCases(lsize, row);
    CatEnd(text);
    if lsize % 32 == 0 {
      CatLen(Number(index), One(' '));
      CatLen(RowHead(index), One(' '));
      newLen, newHeadlen := StartRow(szbuf, len, index, headlen, text);
      newIndex := index + 1;
      t := Cat(if headlen == 0 then text else Cat(text, One('\n')), RowHead(index));
      CatAssoc(text, RowHead(index), One(' '));
      CatAssoc(text, One('\n'), Cat(RowHead(index), One(' ')));
      CatAssoc(Cat(text, One('\n')), RowHead(index), One(' '));
      CatLen(text, One('\n'));
      CatLen(if headlen == 0 then text else Cat(text, One('\n')), RowHead(index));
    }
    if lsize % 16 == 0 && newHeadlen != 0 {
      newLen := Put(szbuf, newLen, ' ', t);
      t := Cat(t, One(' '));
    }
    assert t == Cat(text, Separator(lsize, row));
  }

  method PutByte(szbuf: array<char>, len: nat, b: Byte, ghost text: Text) returns (newLen: nat)
    requires Filled(szbuf, text) && len == Len(text) && len + 2 < szbuf.Length
    modifies szbuf
    ensures Filled(szbuf, Cat(text, HexByte(b))) && newLen == len + 2 == Len(Cat(text, HexByte(b)))
  {
    var high, low := Digit((b / 16) as nat), Digit((b % 16) as nat);
    DigitFacts((b / 16) as nat);
    DigitFacts((b % 16) as nat);
    CatAssoc(text, One(high), One(low));
    newLen := Put(szbuf, len, high, text);
    newLen := Put(szbuf, newLen, low, Cat(text, One(high)));
  }

  /** One turn of the loop over the size bytes from position start, whose first row is row. */
  method PutNext(szbuf: array<char>, len: nat, buffer: seq<Byte>, start: nat, size: nat, lsize: nat, index: nat, headlen: nat,
                 ghost row: nat, ghost text: Text)
    returns (newLen: nat, newIndex: nat, newHeadlen: nat)
    requires szbuf.Length == BUFSIZE && Filled(szbuf, text) && len == Len(text)
    requires lsize < size <= PRINTSIZE && start + size <= |buffer| && row + Rows(size) <= INT_LIMIT
    requires index == row + Rows(lsize) && (headlen == 0 <==> lsize == 0)
    requires text == Printed(buffer, start, start + lsize, row)
    modifies szbuf
    ensures newIndex == row + Rows(lsize + 1) && newHeadlen != 0
    ensures var t := Printed(buffer, start, start + lsize + 1, row); Filled(szbuf, t) && newLen == Len(t) < 1250
  {
    NextByte(buffer, start, start + size, lsize, row);
    CatLen(text, Separator(lsize, row));
    newLen, newIndex, newHeadlen := PutSeparator(szbuf, len, lsize, index, headlen, text, row);
    newLen := PutByte(szbuf, newLen, buffer[start + lsize], Cat(text, Separator(lsize, row)));
  }

  lemma {:induction false} ChunkDone(bytes: seq<Byte>, lo: nat, hi: nat, row: nat, text: Text)
    requires lo < hi <= |bytes| && hi <= lo + PRINTSIZE && row + Rows(hi - lo) <= INT_LIMIT
    requires text == Printed(bytes, lo, hi, row)
    ensures Cat(text, One('\n')) == Dump(bytes, lo, hi, row) && Len(Dump(bytes, lo, hi, row)) == Len(text) + 1 < 1250
    ensures row + Rows(hi - lo) <= 1_000_000 && hi == lo + PRINTSIZE ==> Len(Dump(bytes, lo, hi, row)) + 1 == 1185
  {
    PrintedIsDump(bytes, lo, hi, row);
    ChunkFits(bytes, lo, hi, row);
    if row + Rows(hi - lo) <= 1_000_000 && hi == lo + PRINTSIZE {
      FullChunk(bytes, lo, hi, row);
    }
    CatLen(text, One('\n'));
    OneChar('\n');
  }

  lemma {:induction false} HoldsEnd(s: seq<char>, i: nat, t: Text)
    requires Holds(s, i, t) && i + Len(t) < |s|
    ensures s[i + Len(t)] == NUL
    decreases t
  {
    match t
    case End =>
    case Char(_, rest) => HoldsEnd(s, i + 1, rest);
  }

  /** szbuf[len] = NUL where it is NUL already. */
  method PutEnd(a: array<char>, len: nat, ghost text: Text)
    requires Filled(a, text) && len == Len(text) < a.Length
    modifies a
    ensures Filled(a, text)
  {
    ghost var was := a[..];
    HoldsEnd(was, 0, text);
    a[len] := NUL;
    assert a[..] == was;
  }

  /**
   * Print size bytes from position start into a zeroed buffer. The length passed on is the
   * C string's at each append, and the loop never stops for lack of room.
   */
  method FormLog(index: nat, szbuf: array<char>, buffer: seq<Byte>, start: nat, size: nat) returns (newIndex: nat, len: nat)
    requires szbuf.Length == BUFSIZE && Filled(szbuf, End)
    requires 1 <= size <= PRINTSIZE && start + size <= |buffer| && index + Rows(size) <= INT_LIMIT
    modifies szbuf
    ensures newIndex == index + Rows(size)
    ensures var dump := Dump(buffer, start, start + size, index); Filled(szbuf, dump) && len == Len(dump) + 1 <= 1250
    ensures newIndex <= 1_000_000 && size == PRINTSIZE ==> len == 1185
  {
    len, newIndex := 0, index;
    var lsize, headlen := 0, 0;
    ghost var text := End;
    while size > lsize && len + 10 < szbuf.Length
      invariant lsize <= size && newIndex == index + Rows(lsize)
      invariant headlen == 0 <==> lsize == 0
      invariant text == Printed(buffer, start, start + lsize, index)
      invariant Filled(szbuf, text) && len == Len(text) < 1250
    {
      len, newIndex, headlen := PutNext(szbuf, len, buffer, start, size, lsize, newIndex, headlen, index, text);
      lsize := lsize + 1;
      text := Printed(buffer, start, start + lsize, index);
    }
    ChunkDone(buffer, start, start + size, index, text);
    len := Put(szbuf, len, '\n', text);
    PutEnd(szbuf, len, Cat(text, One('\n')));
    len := len + 1;
  }

  /** One chunk: a zeroed buffer, its rows, and the C string in it appended to the stream. */
  method PrintChunk(os: string, index: nat, buffer: seq<Byte>, start: nat, size: nat) returns (newOs: string, newIndex: nat)
    requires 1 <= size <= PRINTSIZE && start + size <= |buffer| && index + Rows(size) <= INT_LIMIT
    ensures newIndex == index + Rows(size) && newOs == os + Chars(Dump(buffer, start, start + size, index))
  {
    var szbuf := new char[BUFSIZE](_ => NUL);
    ghost var dump := Dump(buffer, start, start + size, index);
    var written;
    newIndex, written := FormLog(index, szbuf, buffer, start, size);
    var n := StrLen(szbuf, dump);
    HoldsChars(szbuf[..], 0, dump);
    newOs := os + szbuf[..n];
  }

  lemma {:induction false} ChunkRows(n: nat)
    ensures n == PRINTSIZE ==> Rows(n) == 16
    ensures 32 * Rows(n) < n + 32
  {
    SizeOfRows(16);
    RowsOfBytes(n);
  }

  lemma {:induction false} NextChunk(header: string, buffer: seq<Byte>, n: nat, m: nat, rows: nat)
    requires n < m <= |buffer| && n == 32 * rows
    ensures header + Chars(Dump(buffer, 0, n, 0)) + Chars(Dump(buffer, n, m, rows)) == header + Chars(Dump(buffer, 0, m, 0))
  {
    DumpChunks(buffer, 0, n, m, 0, rows);
    CatChars(Dump(buffer, 0, n, 0), Dump(buffer, n, m, rows));
  }

  lemma {:induction false} ReadBack(header: string, buffer: seq<Byte>)
    ensures Undump(Parse((header + Chars(Dump(buffer, 0, |buffer|, 0)))[|header|..]), false) == buffer
  {
    var dump := Dump(buffer, 0, |buffer|, 0);
    assert (header + Chars(dump))[|header|..] == Chars(dump);
    ParseChars(dump);
    RoundTrip(buffer, 0, |buffer|, 0);
  }

  /** The body of outputBinary: chunks of 512 bytes, row numbers running on from chunk to chunk. */
  method OutputBinary(header: string, buffer: seq<Byte>) returns (os: string)
    requires |buffer| <= 32 * INT_LIMIT
    ensures os == header + Chars(Dump(buffer, 0, |buffer|, 0))
    ensures Undump(Parse(os[|header|..]), false) == buffer
  {
    os := header;
    var lsize, index := 0, 0;
    while |buffer| > lsize
      invariant lsize <= |buffer|
      invariant lsize < |buffer| ==> lsize == 32 * index
      invariant os == header + Chars(Dump(buffer, 0, lsize, 0))
    {
      var lprintbufsize := if |buffer| - lsize > PRINTSIZE then PRINTSIZE else |buffer| - lsize;
      ChunkRows(lprintbufsize);
      NextChunk(header, buffer, lsize, lsize + lprintbufsize, index);
      os, index := PrintChunk(os, index, buffer, lsize, lprintbufsize);
      lsize := lsize + lprintbufsize;
    }
    ReadBack(header, buffer);
  }
}
