/**
The terminal screen of the benchmark client (bench/client.py): a byte stream cut into tokens, which
move a cursor and fill cells. A token cut off by the end of the bytes waits for more of them.
*/
module Screens {
  import opened Utf8
  import opened Wrappers

  const ESC: Byte := 0x1B

  // ----- the tokens -----

  predicate Param(b: Byte) { 0x30 <= b <= 0x3F }
  predicate Inter(b: Byte) { 0x20 <= b <= 0x2F }
  predicate Final(b: Byte) { 0x40 <= b <= 0x7E }
  predicate Inner(b: Byte) { b != 0x07 && b != ESC }
  predicate Plain(b: Byte) { b != ESC && b != 0x0D && b != 0x0A }
  predicate NoSemicolon(b: Byte) { b != 0x3B }
  predicate StringStart(b: Byte) { b == 0x5D || b == 0x50 || b == 0x5F || b == 0x5E }

  /** The end of the run of such bytes from `i`. */
  function Span(s: seq<Byte>, i: nat, of: Byte -> bool): (j: nat)
    requires i <= |s|
    ensures i <= j <= |s| && Are(s, i, j, of) && (j < |s| ==> !of(s[j]))
    decreases |s| - i
  {
    if i < |s| && of(s[i]) then Span(s, i + 1, of) else i
  }

  predicate Are(s: seq<Byte>, i: nat, j: nat, of: Byte -> bool) {
    i <= j <= |s| && forall k :: i <= k < j ==> of(s[k])
  }

  /** Where the token at the start of the data ends, if it does. */
  function Match(data: seq<Byte>): (end: Option<nat>)
    requires data != []
    ensures end.Some? ==> 1 <= end.value <= |data|
  {
    if data[0] != ESC then
      if Plain(data[0]) then Some(Span(data, 0, Plain)) else Some(1)
    else if |data| == 1 then None
    else if data[1] == 0x5B then
      var j := Span(data, Span(data, 2, Param), Inter);
      if j < |data| && Final(data[j]) then Some(j + 1) else None
    else if StringStart(data[1]) then
      var j := Span(data, 2, Inner);
      if j < |data| && data[j] == 0x07 then Some(j + 1)
      else if j + 1 < |data| && data[j + 1] == 0x5C then Some(j + 2)
      else None
    else Some(2)
  }

  /** The six alternatives of the pattern, as languages. */
  predicate IsControl(t: seq<Byte>, i: nat, j: nat) {
    Are(t, 2, i, Param) && Are(t, i, j, Inter) && |t| == j + 1 && t[0] == ESC && t[1] == 0x5B && Final(t[j])
  }

  predicate IsString(t: seq<Byte>, j: nat) {
    Are(t, 2, j, Inner) && t[0] == ESC && StringStart(t[1]) && (t[j..] == [0x07] || t[j..] == [ESC, 0x5C])
  }

  predicate IsEscape(t: seq<Byte>) {
    |t| == 2 && t[0] == ESC && t[1] != 0x5B && !StringStart(t[1])
  }

  predicate IsText(t: seq<Byte>) {
    t != [] && Are(t, 0, |t|, Plain)
  }

  ghost predicate IsToken(t: seq<Byte>) {
    || (exists i: nat, j: nat :: IsControl(t, i, j))
    || (exists j: nat :: IsString(t, j))
    || IsEscape(t) || t == [0x0D] || t == [0x0A] || IsText(t)
  }

  lemma {:induction false} MatchIsAToken(data: seq<Byte>)
    requires data != [] && Match(data).Some?
    ensures IsToken(data[..Match(data).value])
  {
    var t := data[..Match(data).value];
    if data[0] == ESC && data[1] == 0x5B {
      var i := Span(data, 2, Param);
      assert IsControl(t, i, Span(data, i, Inter));
    } else if data[0] == ESC && StringStart(data[1]) {
      var j := Span(data, 2, Inner);
      assert IsString(t, j);
    }
  }

  /** A run of such bytes that ends inside the data ends there in all of it. */
  lemma {:induction false} SpanIs(s: seq<Byte>, i: nat, j: nat, of: Byte -> bool)
    requires i <= j <= |s| && Are(s, i, j, of) && (j < |s| ==> !of(s[j]))
    ensures Span(s, i, of) == j
    decreases |s| - i
  {
    if i < j {
      SpanIs(s, i + 1, j, of);
    }
  }

  /** The bytes match if a token of the pattern starts them, and then the longest one is taken. */
  lemma {:induction false} MatchIsLongest(data: seq<Byte>, n: nat)
    requires 0 < n <= |data| && IsToken(data[..n])
    ensures Match(data).Some? && n <= Match(data).value
    ensures Plain(data[0]) || n == Match(data).value
  {
    var t := data[..n];
    if i: nat, j: nat :| IsControl(t, i, j) {
      assert forall k :: 0 <= k < n ==> t[k] == data[k];
      SpanIs(data, 2, i, Param);
      SpanIs(data, i, j, Inter);
    } else if j: nat :| IsString(t, j) {
      assert t[j] == t[j..][0];
      assert forall k :: 0 <= k < n ==> t[k] == data[k];
      SpanIs(data, 2, j, Inner);
      if t[j..] == [ESC, 0x5C] {
        assert t[j + 1] == t[j..][1];
      }
    } else if IsText(t) {
      assert t[0] == data[0];
      if Span(data, 0, Plain) < n {
        assert t[Span(data, 0, Plain)] == data[Span(data, 0, Plain)];
      }
    } else {
      assert forall k :: 0 <= k < n ==> t[k] == data[k];
    }
  }

  // ----- what a token does -----

  /** The screen without the bytes that wait. */
  datatype Grid = Grid(cells: map<(int, int), nat>, row: int, col: int)

  function Put(g: Grid, chars: seq<nat>): Grid
    decreases |chars|
  {
    if chars == [] then g
    else Put(Grid(g.cells[(g.row, g.col) := chars[0]], g.row, g.col + 1), chars[1..])
  }

  predicate Digit(b: Byte) { 0x30 <= b <= 0x39 }

  function Worth(digit: Byte): nat
    requires Digit(digit)
  {
    var n: int := digit;
    n - 0x30
  }

  function Decimal(digits: seq<Byte>): nat
    requires forall i :: 0 <= i < |digits| ==> Digit(digits[i])
  {
    if digits == [] then 0
    else Decimal(digits[..|digits| - 1]) * 10 + Worth(digits[|digits| - 1])
  }

  /** `int(digits or 1)`: no value where that raises. */
  function Number(digits: seq<Byte>): Option<nat> {
    if digits == [] then Some(1)
    else if Span(digits, 0, Digit) == |digits| then Some(Decimal(digits))
    else None
  }

  function Move(g: Grid, params: seq<Byte>): Option<Grid> {
    var i := Span(params, 0, NoSemicolon);
    var row, col := Number(params[..i]), Number(if i < |params| then params[i + 1..] else []);
    if row.None? || col.None? then None else Some(g.(row := row.value - 1, col := col.value - 1))
  }

  /** The effect of one token; none if its numbers raise. */
  function Apply(g: Grid, token: seq<Byte>): Option<Grid>
    requires token != []
  {
    if token[0] == ESC then
      if |token| > 2 && token[1] == 0x5B && token[|token| - 1] == 0x48 then Move(g, token[2..Span(token, 2, Param)]) else Some(g)
    else if token[0] == 0x0D then Some(g.(col := 0))
    else if token[0] == 0x0A then Some(g.(row := g.row + 1))
    else Some(Put(g, Decode(token)))
  }

  // ----- feeding -----

  /** After a call: the bytes that wait, or, if it raised, none of them. */
  datatype Fed = Fed(grid: Grid, rest: seq<Byte>) | Raised(grid: Grid)

  function Run(g: Grid, data: seq<Byte>): Fed
    decreases |data|
  {
    if data == [] then Fed(g, [])
    else
      match Match(data)
      case None => Fed(g, data)
      case Some(end) =>
        var after := Apply(g, data[..end]);
        if after.None? then Raised(g) else Run(after.value, data[end..])
  }

  function Parse(s: Fed, data: seq<Byte>): Fed {
    if s.Raised? then s else Run(s.grid, s.rest + data)
  }

  function ParseAll(s: Fed, chunks: seq<seq<Byte>>): Fed
    decreases |chunks|
  {
    if chunks == [] then s else ParseAll(Parse(s, chunks[0]), chunks[1..])
  }

  function Concat(chunks: seq<seq<Byte>>): seq<Byte> {
    if chunks == [] then [] else chunks[0] + Concat(chunks[1..])
  }

  class Screen {
    var cells: map<(int, int), nat>
    var row: int
    var col: int
    var rest: seq<Byte>

    constructor ()
      ensures View() == Fed(Grid(map[], 0, 0), [])
    {
      cells, row, col, rest := map[], 0, 0, [];
    }

    function View(): Fed
      reads this
    {
      Fed(Grid(cells, row, col), rest)
    }

    /** One character after the other. */
    method Write(chars: seq<nat>)
      modifies `cells, `col
      ensures Grid(cells, row, col) == Put(old(Grid(cells, row, col)), chars)
    {
      var i := 0;
      while i < |chars|
        invariant i <= |chars|
        invariant Put(Grid(cells, row, col), chars[i..]) == Put(old(Grid(cells, row, col)), chars)
      {
        assert chars[i..][1..] == chars[i + 1..];
        cells := cells[(row, col) := chars[i]];
        col := col + 1;
        i := i + 1;
      }
    }

    /** The cursor goes where the parameters say, unless one is no number. */
    method MoveTo(params: seq<Byte>) returns (raised: bool)
      modifies `row, `col
      ensures var after := Move(old(Grid(cells, row, col)), params);
              raised == after.None? && Grid(cells, row, col) == if raised then old(Grid(cells, row, col)) else after.value
    {
      var i := Span(params, 0, NoSemicolon);
      var below, right := Number(params[..i]), Number(if i < |params| then params[i + 1..] else []);
      if below.None? || right.None? {
        return true;
      }
      row, col := below.value, right.value;
      row, col := row - 1, col - 1;
      return false;
    }

    method Token(token: seq<Byte>) returns (raised: bool)
      requires token != []
      modifies `cells, `row, `col
      ensures var after := Apply(old(Grid(cells, row, col)), token);
              raised == after.None? && Grid(cells, row, col) == if raised then old(Grid(cells, row, col)) else after.value
    {
      raised := false;
      if token[0] == ESC {
        if |token| > 2 && token[1] == 0x5B && token[|token| - 1] == 0x48 {
          raised := MoveTo(token[2..Span(token, 2, Param)]);
        }
      } else if token[0] == 0x0D {
        col := 0;
      } else if token[0] == 0x0A {
        row := row + 1;
      } else {
        Write(Decode(token));
      }
    }

    method Feed(data: seq<Byte>) returns (raised: bool)
      modifies this
      ensures var after := Parse(old(View()), data);
              && raised == after.Raised? && Grid(cells, row, col) == after.grid
              && rest == if raised then [] else after.rest
    {
      ghost var before := Grid(cells, row, col);
      var all, i := rest + data, 0;
      ghost var left := all;
      rest := [];
      while i < |all|
        invariant i <= |all| && rest == [] && left == all[i..]
        invariant Run(Grid(cells, row, col), left) == Run(before, all)
      {
        var end := Match(all[i..]);
        TakesToken(Grid(cells, row, col), left);
        if end.None? {
          rest := all[i..];
          return false;
        }
        assert all[i..i + end.value] == left[..end.value];
        var failed := Token(all[i..i + end.value]);
        i, left := i + end.value, left[end.value..];
        if failed {
          return true;
        }
      }
      return false;
    }
  }

  /** One turn of the loop. */
  lemma {:induction false} TakesToken(g: Grid, left: seq<Byte>)
    requires left != []
    ensures var end := Match(left);
            if end.None? then Run(g, left) == Fed(g, left)
            else
              var after := Apply(g, left[..end.value]);
              Run(g, left) == if after.None? then Raised(g) else Run(after.value, left[end.value..])
  {
  }

  // ----- chunking -----

  lemma {:induction false} PutAppended(g: Grid, a: seq<nat>, b: seq<nat>)
    ensures Put(g, a + b) == Put(Put(g, a), b)
    decreases |a|
  {
    if a == [] {
      assert a + b == b;
    } else {
      assert (a + b)[1..] == a[1..] + b;
      PutAppended(Grid(g.cells[(g.row, g.col) := a[0]], g.row, g.col + 1), a[1..], b);
    }
  }

  lemma {:induction false} PutMoves(g: Grid, chars: seq<nat>)
    ensures Put(g, chars).col == g.col + |chars|
    decreases |chars|
  {
    if chars != [] {
      PutMoves(Grid(g.cells[(g.row, g.col) := chars[0]], g.row, g.col + 1), chars[1..]);
    }
  }

  lemma {:induction false} SpanAppended(s: seq<Byte>, t: seq<Byte>, i: nat, of: Byte -> bool)
    requires i <= |s| && Span(s, i, of) < |s|
    ensures Span(s + t, i, of) == Span(s, i, of)
  {
    var j := Span(s, i, of);
    SpanIs(s + t, i, j, of);
  }

  /** A token that ends before the data does, or is no text, is the same token in longer data. */
  lemma {:induction false} MatchAppended(a: seq<Byte>, b: seq<Byte>)
    requires a != [] && Match(a).Some? && (Match(a).value < |a| || !Plain(a[0]))
    ensures Match(a + b) == Match(a)
  {
    if a[0] == ESC && a[1] == 0x5B {
      SpanAppended(a, b, 2, Param);
      SpanAppended(a, b, Span(a, 2, Param), Inter);
    } else if a[0] == ESC && StringStart(a[1]) {
      SpanAppended(a, b, 2, Inner);
    } else if Plain(a[0]) {
      SpanAppended(a, b, 0, Plain);
    }
  }

  /** The text at the end of the data that more text would continue. */
  function LastText(data: seq<Byte>): seq<Byte>
    decreases |data|
  {
    if data == [] || Match(data).None? then []
    else if Match(data).value == |data| && Plain(data[0]) then data
    else LastText(data[Match(data).value..])
  }

  lemma {:induction false} PutDecoded(g: Grid, a: seq<Byte>, b: seq<Byte>)
    requires !Unfinished(a)
    ensures Put(g, Decode(a + b)) == Put(Put(g, Decode(a)), Decode(b))
  {
    DecodeAppended(a, b);
    PutAppended(g, Decode(a), Decode(b));
  }

  lemma {:induction false} TextAppended(g: Grid, a: seq<Byte>, b: seq<Byte>)
    requires a != [] && Are(a, 0, |a|, Plain) && b != [] && Plain(b[0]) && !Unfinished(a)
    ensures Run(Put(g, Decode(a)), b) == Run(g, a + b)
  {
    var k := Span(b, 0, Plain);
    SpanIs(a + b, 0, |a| + k, Plain);
    assert (a + b)[..|a| + k] == a + b[..k] && (a + b)[|a| + k..] == b[k..];
    PutDecoded(g, a, b[..k]);
  }

  lemma {:induction false} TextEnds(g: Grid, a: seq<Byte>, b: seq<Byte>)
    requires a != [] && Are(a, 0, |a|, Plain) && (b != [] ==> !Plain(b[0]))
    ensures Run(Put(g, Decode(a)), b) == Run(g, a + b)
  {
    SpanIs(a + b, 0, |a|, Plain);
    assert (a + b)[..|a|] == a && (a + b)[|a|..] == b;
  }

  lemma {:induction false} RunStep(g: Grid, a: seq<Byte>, b: seq<Byte>)
    requires a != [] && Match(a).Some? && (Match(a).value < |a| || !Plain(a[0]))
    ensures var end := Match(a).value;
            var after := Apply(g, a[..end]);
            Run(g, a + b) == if after.None? then Raised(g) else Run(after.value, a[end..] + b)
  {
    MatchAppended(a, b);
    var end := Match(a).value;
    assert (a + b)[..end] == a[..end] && (a + b)[end..] == a[end..] + b;
  }

  lemma {:induction false} RunText(g: Grid, a: seq<Byte>)
    requires a != [] && Match(a) == Some(|a|) && Plain(a[0])
    ensures Run(g, a) == Fed(Put(g, Decode(a)), []) && LastText(a) == a
  {
    assert a[..|a|] == a && a[|a|..] == [];
  }

  lemma {:induction false} RunAppended(g: Grid, a: seq<Byte>, b: seq<Byte>)
    requires Run(g, a).Raised? || !Unfinished(LastText(a))
    ensures Parse(Run(g, a), b) == Run(g, a + b)
    decreases |a|
  {
    if a == [] {
      assert a + b == b && [] + b == b;
    } else if Match(a).Some? {
      var end := Match(a).value;
      if Plain(a[0]) && end == |a| {
        RunText(g, a);
        assert [] + b == b;
        if b != [] && Plain(b[0]) {
          TextAppended(g, a, b);
        } else {
          TextEnds(g, a, b);
        }
      } else {
        RunStep(g, a, b);
        var after := Apply(g, a[..end]);
        if after.Some? {
          RunAppended(after.value, a[end..], b);
        }
      }
    }
  }

  /** The two ways of feeding unfinished text and a byte that continues it end in different columns. */
  predicate Differ(g: Grid, a: seq<Byte>, b: seq<Byte>) {
    && Run(g, a).Fed? && Parse(Run(g, a), b).Fed? && Run(g, a + b).Fed?
    && Parse(Run(g, a), b).grid.col == Run(g, a + b).grid.col + 1
  }

  lemma {:induction false} TextMoves(g: Grid, a: seq<Byte>)
    requires IsText(a)
    ensures Run(g, a).Fed? && Run(g, a).rest == [] && Run(g, a).grid.col == g.col + |Decode(a)|
  {
    SpanIs(a, 0, |a|, Plain);
    RunText(g, a);
    PutMoves(g, Decode(a));
  }

  lemma {:induction false} TextSplits(g: Grid, a: seq<Byte>)
    requires IsText(a) && Unfinished(a)
    ensures Differ(g, a, [More(a)])
  {
    var b := [More(a)];
    MoreAddsNone(a);
    TextMoves(g, a);
    TextMoves(g, a + b);
    TextMoves(Run(g, a).grid, b);
    assert [] + b == b;
  }

  /** A chunk that ends inside a character shows two where the unbroken bytes show one. */
  lemma {:induction false} RunSplits(g: Grid, a: seq<Byte>)
    requires Run(g, a).Fed? && Unfinished(LastText(a))
    ensures Differ(g, a, [More(LastText(a))])
    decreases |a|
  {
    var end, b := Match(a).value, [More(LastText(a))];
    if Plain(a[0]) && end == |a| {
      RunText(g, a);
      TextSplits(g, a);
    } else {
      RunStep(g, a, b);
      RunSplits(Apply(g, a[..end]).value, a[end..]);
    }
  }

  lemma {:induction false} SplitHarms(s: Fed, a: seq<Byte>)
    requires s.Fed? && Parse(s, a).Fed? && Unfinished(LastText(s.rest + a))
    ensures exists b: seq<Byte> :: Parse(Parse(s, a), b) != Parse(s, a + b)
  {
    var all := s.rest + a;
    RunSplits(s.grid, all);
    var b := [More(LastText(all))];
    assert all + b == s.rest + (a + b);
    assert Parse(Parse(s, a), b) != Parse(s, a + b);
  }

  /**
  Two calls do what one call with all the bytes does, whatever the second bytes are, exactly if the
  first call raises or its bytes do not end inside a character.
  */
  lemma {:induction false} ChunkingIsHarmlessExactly(s: Fed, a: seq<Byte>)
    requires s.Fed?
    ensures (forall b: seq<Byte> :: Parse(Parse(s, a), b) == Parse(s, a + b))
            <==> Parse(s, a).Raised? || !Unfinished(LastText(s.rest + a))
  {
    var all := s.rest + a;
    if Parse(s, a).Raised? || !Unfinished(LastText(all)) {
      forall b: seq<Byte> ensures Parse(Parse(s, a), b) == Parse(s, a + b) {
        ChunkAppended(s, a, b);
      }
    } else {
      SplitHarms(s, a);
    }
  }

  lemma {:induction false} LastTextIsAscii(data: seq<Byte>)
    requires Ascii(data)
    ensures Ascii(LastText(data))
    decreases |data|
  {
    if data != [] && Match(data).Some? && !(Match(data).value == |data| && Plain(data[0])) {
      LastTextIsAscii(data[Match(data).value..]);
    }
  }

  lemma {:induction false} RestIsAscii(g: Grid, data: seq<Byte>)
    requires Ascii(data) && Run(g, data).Fed?
    ensures Ascii(Run(g, data).rest)
    decreases |data|
  {
    if data != [] && Match(data).Some? {
      var end := Match(data).value;
      RestIsAscii(Apply(g, data[..end]).value, data[end..]);
    }
  }

  lemma {:induction false} ChunkAppended(s: Fed, a: seq<Byte>, b: seq<Byte>)
    requires s.Fed? && (Parse(s, a).Raised? || !Unfinished(LastText(s.rest + a)))
    ensures Parse(Parse(s, a), b) == Parse(s, a + b)
  {
    var all := s.rest + a;
    assert s.rest + (a + b) == all + b;
    assert Parse(s, a) == Run(s.grid, all) && Parse(s, a + b) == Run(s.grid, all + b);
    RunAppended(s.grid, all, b);
  }

  lemma {:induction false} AsciiChunk(s: Fed, a: seq<Byte>, b: seq<Byte>)
    requires s.Fed? && Ascii(s.rest) && Ascii(a)
    ensures Parse(Parse(s, a), b) == Parse(s, a + b)
    ensures Parse(s, a).Fed? ==> Ascii(Parse(s, a).rest)
  {
    var all := s.rest + a;
    LastTextIsAscii(all);
    AsciiIsFinished(LastText(all));
    ChunkAppended(s, a, b);
    if Parse(s, a).Fed? {
      RestIsAscii(s.grid, all);
    }
  }

  /** For ASCII bytes no way of cutting them into chunks makes a difference, not even to raising. */
  lemma {:induction false} ChunkingDoesNotMatter(s: Fed, chunks: seq<seq<Byte>>)
    requires s.Fed? && Ascii(s.rest) && chunks != [] && forall i :: 0 <= i < |chunks| ==> Ascii(chunks[i])
    ensures ParseAll(s, chunks) == Parse(s, Concat(chunks))
    decreases |chunks|
  {
    var first, rest := chunks[0], chunks[1..];
    var after := Parse(s, first);
    if rest == [] {
      assert Concat(chunks) == first;
    } else {
      AsciiChunk(s, first, Concat(rest));
      if after.Raised? {
        RaisedStays(after, rest);
      } else {
        ChunkingDoesNotMatter(after, rest);
      }
    }
  }

  lemma {:induction false} RaisedStays(s: Fed, chunks: seq<seq<Byte>>)
    requires s.Raised?
    ensures ParseAll(s, chunks) == s
    decreases |chunks|
  {
    if chunks != [] {
      RaisedStays(s, chunks[1..]);
    }
  }
}
