/**
What the screen of the benchmark client shows (bench/client.py): a list of things to show, printed as
bytes the way a terminal program prints it, has the effect of each of them in turn.
*/
module ScreenTheorems {
  import opened Wrappers
  import opened Utf8
  import opened Screens

  // ----- UTF-8, section 3 of RFC 3629 -----

  /** The code points that have an encoding: no surrogates. */
  predicate Scalar(c: nat) {
    c < 0xD800 || 0xE000 <= c <= 0x10FFFF
  }

  function Encode(c: nat): (s: seq<Byte>)
    requires Scalar(c)
    ensures 1 <= |s| <= 4
  {
    if c < 0x80 then [c]
    else if c < 0x800 then [0xC0 + c / 64, 0x80 + c % 64]
    else if c < 0x1_0000 then [0xE0 + c / 4096, 0x80 + c / 64 % 64, 0x80 + c % 64]
    else [0xF0 + c / 262144, 0x80 + c / 4096 % 64, 0x80 + c / 64 % 64, 0x80 + c % 64]
  }

  predicate Scalars(chars: seq<nat>) {
    forall i :: 0 <= i < |chars| ==> Scalar(chars[i])
  }

  function EncodeAll(chars: seq<nat>): seq<Byte>
    requires Scalars(chars)
  {
    if chars == [] then [] else Encode(chars[0]) + EncodeAll(chars[1..])
  }

  predicate AllFit(s: seq<Byte>)
    requires s != []
  {
    && Size(s[0]) == |s|
    && (|s| > 1 ==> Fits(s[0], 1, s[1])) && (|s| > 2 ==> Fits(s[0], 2, s[2])) && (|s| > 3 ==> Fits(s[0], 3, s[3]))
  }

  lemma {:induction false} EncodingFits(c: nat)
    requires Scalar(c)
    ensures AllFit(Encode(c))
  {
    if 0x1_0000 <= c {
      FourFit(c);
    } else if 0x800 <= c {
      ThreeFit(c);
    }
  }

  lemma {:induction false} ThreeFit(c: nat)
    requires Scalar(c) && 0x800 <= c < 0x1_0000
    ensures AllFit(Encode(c))
  {
    Sixes(c);
  }

  lemma {:induction false} FourFit(c: nat)
    requires Scalar(c) && 0x1_0000 <= c
    ensures AllFit(Encode(c))
  {
    Sixes(c);
  }

  /** The bits that each kind of byte carries. */
  lemma {:induction false} LowBits(x: nat)
    ensures x < 64 ==> Bits(0x80 + x, 64) == x
    ensures x < 32 ==> Bits(0xC0 + x, 32) == x
    ensures x < 16 ==> Bits(0xE0 + x, 16) == x
    ensures x < 8 ==> Bits(0xF0 + x, 8) == x
  {
  }

  /** The digits of a number in base 64. */
  lemma {:induction false} Sixes(c: nat)
    ensures c == c / 64 * 64 + c % 64
    ensures c / 64 == c / 4096 * 64 + c / 64 % 64
    ensures c / 4096 == c / 262144 * 64 + c / 4096 % 64
  {
  }

  lemma {:induction false} ValueOfEncoding(c: nat)
    requires Scalar(c)
    ensures Value(Encode(c)) == c
  {
    if c < 0x800 {
      LowBits(c / 64);
      LowBits(c % 64);
    } else if c < 0x1_0000 {
      LongValue(c / 4096, c / 64 % 64, c % 64);
    } else {
      LongerValue(c / 262144, c / 4096 % 64, c / 64 % 64, c % 64);
    }
    Sixes(c);
  }

  lemma {:induction false} LongValue(x: nat, y: nat, z: nat)
    requires x < 16 && y < 64 && z < 64
    ensures Value([0xE0 + x, 0x80 + y, 0x80 + z]) == (x * 64 + y) * 64 + z
  {
    LowBits(x);
    LowBits(y);
    LowBits(z);
  }

  lemma {:induction false} LongerValue(w: nat, x: nat, y: nat, z: nat)
    requires w < 8 && x < 64 && y < 64 && z < 64
    ensures Value([0xF0 + w, 0x80 + x, 0x80 + y, 0x80 + z]) == ((w * 64 + x) * 64 + y) * 64 + z
  {
    LowBits(w);
    LowBits(x);
    LowBits(y);
    LowBits(z);
  }

  lemma {:induction false} ReachesEnd(s: seq<Byte>, k: nat)
    requires 1 <= k <= |s| <= 4 && AllFit(s)
    ensures Reach(s, k) == |s|
    decreases |s| - k
  {
    if k < |s| {
      ReachesEnd(s, k + 1);
    }
  }

  /** The bytes of one character decode to it and are complete. */
  lemma {:induction false} EncodingDecodes(c: nat)
    requires Scalar(c)
    ensures Decode(Encode(c)) == [c] && !Unfinished(Encode(c))
  {
    var s := Encode(c);
    EncodingFits(c);
    ReachesEnd(s, 1);
    ValueOfEncoding(c);
    assert s[..|s|] == s && s[|s|..] == [];
    assert First(s) == c;
  }

  /** Decoding reads back what encoding wrote, and the encoding ends in no unfinished character. */
  lemma {:induction false} DecodeOfEncode(chars: seq<nat>)
    requires Scalars(chars)
    ensures Decode(EncodeAll(chars)) == chars && !Unfinished(EncodeAll(chars))
  {
    if chars != [] {
      var first, others := Encode(chars[0]), EncodeAll(chars[1..]);
      EncodingDecodes(chars[0]);
      DecodeOfEncode(chars[1..]);
      DecodeAppended(first, others);
      FinishedAppended(first, others);
      assert chars == [chars[0]] + chars[1..];
    }
  }

  lemma {:induction false} FinishedAppended(s: seq<Byte>, t: seq<Byte>)
    requires !Unfinished(s) && !Unfinished(t)
    ensures !Unfinished(s + t)
    decreases |s|
  {
    if s == [] {
      assert s + t == t;
    } else {
      var n := Taken(s);
      FirstAppended(s, t);
      var rest := s[n..];
      assert (s + t)[n..] == rest + t;
      FinishedAppended(rest, t);
      if n == |s| {
        assert rest == [];
      }
    }
  }

  // ----- decimals -----

  function Digits(n: nat): (s: seq<Byte>)
    ensures s != [] && Are(s, 0, |s|, Digit)
    decreases n
  {
    if n < 10 then [0x30 + n] else Digits(n / 10) + [0x30 + n % 10]
  }

  lemma {:induction false} DecimalOfDigits(n: nat)
    ensures Decimal(Digits(n)) == n
    decreases n
  {
    if n < 10 {
      assert Decimal([]) == 0;
      assert Digits(n)[..0] == [];
    } else {
      DecimalOfDigits(n / 10);
      var before, last: Byte := Digits(n / 10), 0x30 + n % 10;
      assert Digits(n) == before + [last];
      assert (before + [last])[..|before|] == before;
      assert Worth(last) == n % 10;
    }
  }

  /** A number reads back as what was printed, and only digits are a number. */
  lemma {:induction false} NumberOfDigits(n: nat)
    ensures Number(Digits(n)) == Some(n)
  {
    DecimalOfDigits(n);
    SpanIs(Digits(n), 0, |Digits(n)|, Digit);
  }

  lemma {:induction false} NumberExactly(s: seq<Byte>)
    ensures Number(s).Some? <==> forall i :: 0 <= i < |s| ==> Digit(s[i])
  {
  }

  // ----- what programs print -----

  /**
  Something to show: a cursor position counted from 1 (`semicolon` and `inter` say how it is printed),
  a return, a new line, text, and the sequences without effect.
  */
  datatype Item =
    | Cursor(row: Option<nat>, semicolon: bool, col: Option<nat>, inter: seq<Byte>)
    | Return
    | NewLine
    | Text(chars: seq<nat>)
    | Control(params: seq<Byte>, inter: seq<Byte>, final: Byte)
    | String(start: Byte, body: seq<Byte>, bell: bool)
    | Escape(second: Byte)

  predicate Printable(item: Item) {
    match item
    case Cursor(_, semicolon, col, inter) => (col.Some? ==> semicolon) && Are(inter, 0, |inter|, Inter)
    case Return => true
    case NewLine => true
    case Text(chars) =>
      Scalars(chars) && forall i :: 0 <= i < |chars| ==> chars[i] != 0x1B && chars[i] != 0x0D && chars[i] != 0x0A
    case Control(params, inter, final) =>
      Are(params, 0, |params|, Param) && Are(inter, 0, |inter|, Inter) && Final(final) && final != 0x48
    case String(start, body, _) => StringStart(start) && Are(body, 0, |body|, Inner)
    case Escape(second) => second != 0x5B && !StringStart(second)
  }

  function Shown(n: Option<nat>): seq<Byte> {
    if n.Some? then Digits(n.value) else []
  }

  function Position(row: Option<nat>, semicolon: bool, col: Option<nat>): seq<Byte> {
    Parameters(Shown(row), if semicolon then Some(Shown(col)) else None)
  }

  function Parameters(first: seq<Byte>, second: Option<seq<Byte>>): seq<Byte> {
    first + (if second.Some? then [0x3B] + second.value else [])
  }

  function Sequence(params: seq<Byte>, inter: seq<Byte>, final: Byte): seq<Byte> {
    [ESC, 0x5B] + params + inter + [final]
  }

  function Print(item: Item): seq<Byte>
    requires Printable(item)
  {
    match item
    case Cursor(row, semicolon, col, inter) => Sequence(Position(row, semicolon, col), inter, 0x48)
    case Return => [0x0D]
    case NewLine => [0x0A]
    case Text(chars) => EncodeAll(chars)
    case Control(params, inter, final) => Sequence(params, inter, final)
    case String(start, body, bell) => [ESC, start] + body + (if bell then [0x07] else [ESC, 0x5C])
    case Escape(second) => [ESC, second]
  }

  predicate OnLine(p: (int, int), row: int, col: int, n: nat) {
    p.0 == row && col <= p.1 < col + n
  }

  /** The cells of a row from a column on. */
  function Line(row: int, col: int, chars: seq<nat>): (cells: map<(int, int), nat>)
    ensures forall p :: p in cells ==> OnLine(p, row, col, |chars|)
    ensures forall p :: OnLine(p, row, col, |chars|) ==> p in cells && cells[p] == chars[p.1 - col]
  {
    if chars == [] then map[]
    else
      var n := |chars| - 1;
      Line(row, col, chars[..n])[(row, col + n) := chars[n]]
  }

  /** What showing an item does: it writes a row, or it moves the cursor. */
  function Effect(g: Grid, item: Item): Grid {
    match item
    case Cursor(row, _, col, _) =>
      Grid(g.cells, (if row.Some? then row.value else 1) - 1, (if col.Some? then col.value else 1) - 1)
    case Return => Grid(g.cells, g.row, 0)
    case NewLine => Grid(g.cells, g.row + 1, g.col)
    case Text(chars) => Grid(g.cells + Line(g.row, g.col, chars), g.row, g.col + |chars|)
    case _ => g
  }

  predicate AllPrintable(items: seq<Item>) {
    forall i :: 0 <= i < |items| ==> Printable(items[i])
  }

  function PrintAll(items: seq<Item>): seq<Byte>
    requires AllPrintable(items)
  {
    if items == [] then [] else Print(items[0]) + PrintAll(items[1..])
  }

  function Effects(g: Grid, items: seq<Item>): Grid
    decreases |items|
  {
    if items == [] then g else Effects(Effect(g, items[0]), items[1..])
  }

  // ----- one item -----

  /** Text fills the cells from the cursor on with its characters, and changes no other cell. */
  lemma {:induction false} PutIs(g: Grid, chars: seq<nat>)
    ensures var h := Put(g, chars);
            && h.row == g.row && h.col == g.col + |chars|
            && (forall p :: p in h.cells <==> p in g.cells || OnLine(p, g.row, g.col, |chars|))
            && (forall p :: p in h.cells ==>
                  h.cells[p] == if OnLine(p, g.row, g.col, |chars|) then chars[p.1 - g.col] else g.cells[p])
    decreases |chars|
  {
    if chars != [] {
      PutIs(Grid(g.cells[(g.row, g.col) := chars[0]], g.row, g.col + 1), chars[1..]);
    }
  }

  lemma {:induction false} SameCells(a: map<(int, int), nat>, b: map<(int, int), nat>)
    requires forall p :: p in a <==> p in b
    requires forall p :: p in a ==> a[p] == b[p]
    ensures a == b
  {
  }

  lemma {:induction false} PutIsLine(g: Grid, chars: seq<nat>)
    ensures Put(g, chars) == Effect(g, Text(chars))
  {
    PutIs(g, chars);
    SameCells(Put(g, chars).cells, g.cells + Line(g.row, g.col, chars));
  }

  /** The bytes have the effect, wait for no more, and end in no text that more text could complete. */
  predicate Shows(g: Grid, bytes: seq<Byte>, after: Grid) {
    Run(g, bytes) == Fed(after, []) && !Unfinished(LastText(bytes))
  }

  lemma {:induction false} PlainBytes(chars: seq<nat>)
    requires Printable(Text(chars))
    ensures var s := EncodeAll(chars); Are(s, 0, |s|, Plain) && (chars != [] ==> s != [])
  {
    if chars != [] {
      assert Printable(Text(chars[1..]));
      PlainBytes(chars[1..]);
      var first := Encode(chars[0]);
      assert Are(first, 0, |first|, Plain);
    }
  }

  lemma {:induction false} TextShows(g: Grid, chars: seq<nat>)
    requires Printable(Text(chars))
    ensures Shows(g, Print(Text(chars)), Effect(g, Text(chars)))
  {
    var s := EncodeAll(chars);
    PlainBytes(chars);
    DecodeOfEncode(chars);
    PutIsLine(g, chars);
    if chars != [] {
      SpanIs(s, 0, |s|, Plain);
      RunText(g, s);
    }
  }

  /** A token that is no text has its effect alone. */
  lemma {:induction false} TokenShows(g: Grid, t: seq<Byte>)
    requires t != [] && IsToken(t) && !Plain(t[0]) && Apply(g, t).Some?
    ensures Shows(g, t, Apply(g, t).value)
  {
    assert t[..|t|] == t && t[|t|..] == [];
    MatchIsLongest(t, |t|);
  }

  lemma {:induction false} SequenceIsToken(params: seq<Byte>, inter: seq<Byte>, final: Byte)
    requires Are(params, 0, |params|, Param) && Are(inter, 0, |inter|, Inter) && Final(final)
    ensures var t := Sequence(params, inter, final);
            && IsToken(t) && t[0] == ESC && t[1] == 0x5B && t[|t| - 1] == final
            && Span(t, 2, Param) == 2 + |params| && t[2..Span(t, 2, Param)] == params
  {
    var t := Sequence(params, inter, final);
    var i := 2 + |params|;
    assert IsControl(t, i, i + |inter|);
    SpanIs(t, 2, i, Param);
  }

  lemma {:induction false} NumberOfShown(n: Option<nat>)
    ensures Number(Shown(n)) == Some(if n.Some? then n.value else 1)
    ensures Are(Shown(n), 0, |Shown(n)|, Digit)
  {
    if n.Some? {
      NumberOfDigits(n.value);
    }
  }

  /** The parameters up to the first semicolon and those behind it. */
  lemma {:induction false} PartsOf(first: seq<Byte>, second: Option<seq<Byte>>)
    requires Are(first, 0, |first|, NoSemicolon)
    ensures var params := Parameters(first, second);
            var i := Span(params, 0, NoSemicolon);
            params[..i] == first && (if i < |params| then params[i + 1..] else []) == if second.Some? then second.value else []
  {
    var params := Parameters(first, second);
    SpanIs(params, 0, |first|, NoSemicolon);
    assert params[..|first|] == first;
    if second.Some? {
      assert params[|first| + 1..] == second.value;
    }
  }

  lemma {:induction false} MoveOf(g: Grid, first: seq<Byte>, second: Option<seq<Byte>>)
    requires Are(first, 0, |first|, NoSemicolon)
    ensures var row, col := Number(first), if second.Some? then Number(second.value) else Some(1);
            var after := Move(g, Parameters(first, second));
            && (after.Some? <==> row.Some? && col.Some?)
            && (after.Some? ==> after.value == Grid(g.cells, row.value as int - 1, col.value as int - 1))
  {
    PartsOf(first, second);
  }

  lemma {:induction false} ParametersAre(first: seq<Byte>, second: Option<seq<Byte>>)
    requires Are(first, 0, |first|, Param) && (second.Some? ==> Are(second.value, 0, |second.value|, Param))
    ensures var params := Parameters(first, second); Are(params, 0, |params|, Param)
  {
  }

  lemma {:induction false} PositionMoves(g: Grid, row: Option<nat>, semicolon: bool, col: Option<nat>)
    requires col.Some? ==> semicolon
    ensures Move(g, Position(row, semicolon, col)) == Some(Effect(g, Cursor(row, semicolon, col, [])))
    ensures var params := Position(row, semicolon, col); Are(params, 0, |params|, Param)
  {
    NumberOfShown(row);
    NumberOfShown(col);
    PartsMove(g, Shown(row), if semicolon then Some(Shown(col)) else None);
  }

  lemma {:induction false} PartsMove(g: Grid, first: seq<Byte>, second: Option<seq<Byte>>)
    requires Are(first, 0, |first|, Digit) && (second.Some? ==> Are(second.value, 0, |second.value|, Digit))
    ensures var params := Parameters(first, second); Are(params, 0, |params|, Param)
    ensures var row, col := Number(first), if second.Some? then Number(second.value) else Some(1);
            var after := Move(g, Parameters(first, second));
            && (after.Some? <==> row.Some? && col.Some?)
            && (after.Some? ==> after.value == Grid(g.cells, row.value as int - 1, col.value as int - 1))
  {
    ParametersAre(first, second);
    MoveOf(g, first, second);
  }

  lemma {:induction false} CursorShows(g: Grid, item: Item)
    requires item.Cursor? && Printable(item)
    ensures Shows(g, Print(item), Effect(g, item))
  {
    PositionMoves(g, item.row, item.semicolon, item.col);
    SequenceIsToken(Position(item.row, item.semicolon, item.col), item.inter, 0x48);
    TokenShows(g, Print(item));
  }

  lemma {:induction false} SilentShows(g: Grid, item: Item)
    requires Printable(item) && (item.Control? || item.String? || item.Escape?)
    ensures Shows(g, Print(item), g)
  {
    var t := Print(item);
    if item.Control? {
      SequenceIsToken(item.params, item.inter, item.final);
    } else if item.String? {
      var j := 2 + |item.body|;
      assert t[j..] == if item.bell then [0x07] else [ESC, 0x5C];
      assert IsString(t, j);
    } else {
      assert IsEscape(t);
    }
    TokenShows(g, t);
  }

  lemma {:induction false} ItemShows(g: Grid, item: Item)
    requires Printable(item)
    ensures Shows(g, Print(item), Effect(g, item))
  {
    match item
    case Text(chars) => TextShows(g, chars);
    case Cursor(_, _, _, _) => CursorShows(g, item);
    case Return => TokenShows(g, [0x0D]);
    case NewLine => TokenShows(g, [0x0A]);
    case _ => SilentShows(g, item);
  }

  /**
  Whatever is printed is shown: on a screen that waits for no bytes, feeding the bytes of any list of
  items has exactly their effects, raises nothing and leaves nothing waiting.
  */
  lemma {:induction false} PrintedIsShown(g: Grid, items: seq<Item>)
    requires AllPrintable(items)
    ensures Parse(Fed(g, []), PrintAll(items)) == Fed(Effects(g, items), [])
    decreases |items|
  {
    if items == [] {
      assert [] + PrintAll(items) == [];
    } else {
      var first, rest := Print(items[0]), PrintAll(items[1..]);
      ItemShows(g, items[0]);
      RunAppended(g, first, rest);
      PrintedIsShown(Effect(g, items[0]), items[1..]);
      assert [] + PrintAll(items) == first + rest;
    }
  }

  /** A cursor position raises exactly if its parameters are not at most two numbers, and then moves nothing. */
  lemma {:induction false} BadPositionRaises(g: Grid, first: seq<Byte>, second: Option<seq<Byte>>, inter: seq<Byte>)
    requires Are(first, 0, |first|, Param) && Are(first, 0, |first|, NoSemicolon) && Are(inter, 0, |inter|, Inter)
    requires second.Some? ==> Are(second.value, 0, |second.value|, Param)
    ensures var s := Parse(Fed(g, []), Sequence(Parameters(first, second), inter, 0x48));
            && (s.Raised? <==> Number(first).None? || (second.Some? && Number(second.value).None?))
            && (s.Raised? ==> s.grid == g)
  {
    var params := Parameters(first, second);
    MoveOf(g, first, second);
    ParametersAre(first, second);
    SequenceIsToken(params, inter, 0x48);
    FedToken(g, Sequence(params, inter, 0x48));
  }

  lemma {:induction false} FedToken(g: Grid, t: seq<Byte>)
    requires t != [] && IsToken(t) && !Plain(t[0])
    ensures var after := Apply(g, t);
            Parse(Fed(g, []), t) == if after.None? then Raised(g) else Fed(after.value, [])
  {
    assert [] + t == t && t[..|t|] == t && t[|t|..] == [];
    MatchIsLongest(t, |t|);
    TakesToken(g, t);
  }
}
