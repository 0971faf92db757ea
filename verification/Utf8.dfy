/**
Decoding UTF-8 with replacement, as `decode("utf-8", "replace")` does it: each byte that starts no
character, and each character that breaks off, becomes one U+FFFD.
*/
module Utf8 {
  type Byte = b: nat | b < 256

  const REPLACEMENT: nat := 0xFFFD

  /** The length of the character that a byte starts; 0 if it starts none. */
  function Size(lead: Byte): nat {
    if lead < 0x80 then 1
    else if 0xC2 <= lead < 0xE0 then 2
    else if 0xE0 <= lead < 0xF0 then 3
    else if 0xF0 <= lead < 0xF5 then 4
    else 0
  }

  /** The least byte that may follow as byte `k` of a character. */
  function Low(lead: Byte, k: nat): Byte {
    if k == 1 && lead == 0xE0 then 0xA0 else if k == 1 && lead == 0xF0 then 0x90 else 0x80
  }

  function High(lead: Byte, k: nat): Byte {
    if k == 1 && lead == 0xED then 0x9F else if k == 1 && lead == 0xF4 then 0x8F else 0xBF
  }

  predicate Fits(lead: Byte, k: nat, b: Byte) {
    Low(lead, k) <= b <= High(lead, k)
  }

  /** How far the character at the start of `s` reaches, `k` bytes of it being known to fit. */
  function Reach(s: seq<Byte>, k: nat): (n: nat)
    requires 1 <= k <= |s| && k <= Size(s[0])
    ensures k <= n <= |s| && n <= Size(s[0])
    ensures n < |s| && n < Size(s[0]) ==> !Fits(s[0], n, s[n])
    decreases |s| - k
  {
    if k < Size(s[0]) && k < |s| && Fits(s[0], k, s[k]) then Reach(s, k + 1) else k
  }

  /** The number of bytes that the first character, or its replacement, stands for. */
  function Taken(s: seq<Byte>): (n: nat)
    requires s != []
    ensures 1 <= n <= |s|
  {
    if Size(s[0]) == 0 then 1 else Reach(s, 1)
  }

  function Bits(b: Byte, range: nat): nat
    requires range > 0
  {
    var n: int := b;
    n % range
  }

  /** The value of a character: the low bits of its bytes. */
  function Value(s: seq<Byte>): nat
    requires s != []
  {
    if |s| == 1 then s[0]
    else if |s| == 2 then Bits(s[0], 32) * 64 + Bits(s[1], 64)
    else if |s| == 3 then (Bits(s[0], 16) * 64 + Bits(s[1], 64)) * 64 + Bits(s[2], 64)
    else ((Bits(s[0], 8) * 64 + Bits(s[1], 64)) * 64 + Bits(s[2], 64)) * 64 + Bits(s[3], 64)
  }

  function First(s: seq<Byte>): nat
    requires s != []
  {
    if Taken(s) == Size(s[0]) then Value(s[..Taken(s)]) else REPLACEMENT
  }

  function Decode(s: seq<Byte>): seq<nat> {
    if s == [] then [] else [First(s)] + Decode(s[Taken(s)..])
  }

  /** The bytes end inside a character that more bytes could complete. */
  predicate Unfinished(s: seq<Byte>) {
    s != [] && (if Taken(s) == |s| then Taken(s) < Size(s[0]) else Unfinished(s[Taken(s)..]))
  }

  predicate Ascii(s: seq<Byte>) {
    forall i :: 0 <= i < |s| ==> s[i] < 0x80
  }

  lemma {:induction false} ReachAppended(s: seq<Byte>, t: seq<Byte>, k: nat)
    requires 1 <= k <= |s| && k <= Size(s[0])
    requires Reach(s, k) < |s| || Reach(s, k) == Size(s[0])
    ensures Reach(s + t, k) == Reach(s, k)
    decreases |s| - k
  {
    if k < Size(s[0]) && k < |s| && Fits(s[0], k, s[k]) {
      ReachAppended(s, t, k + 1);
    }
  }

  lemma {:induction false} FirstAppended(s: seq<Byte>, t: seq<Byte>)
    requires s != [] && (Taken(s) < |s| || Taken(s) >= Size(s[0]))
    ensures Taken(s + t) == Taken(s) && First(s + t) == First(s)
  {
    if Size(s[0]) != 0 {
      ReachAppended(s, t, 1);
    }
    assert (s + t)[..Taken(s)] == s[..Taken(s)];
  }

  /** Bytes decode apart from what follows them, unless they end inside a character. */
  lemma {:induction false} DecodeAppended(s: seq<Byte>, t: seq<Byte>)
    requires !Unfinished(s)
    ensures Decode(s + t) == Decode(s) + Decode(t)
    decreases |s|
  {
    if s == [] {
      assert s + t == t;
    } else {
      var n := Taken(s);
      FirstAppended(s, t);
      assert (s + t)[n..] == s[n..] + t;
      DecodeAppended(s[n..], t);
    }
  }

  /** A byte that continues the character at the end of unfinished bytes. */
  function More(s: seq<Byte>): Byte
    requires Unfinished(s)
  {
    if Taken(s) == |s| then Low(s[0], |s|) else More(s[Taken(s)..])
  }

  lemma {:induction false} ReachGrows(s: seq<Byte>, k: nat)
    requires 1 <= k <= |s| && k <= Size(s[0]) && Reach(s, k) == |s| < Size(s[0])
    ensures Reach(s + [Low(s[0], |s|)], k) == |s| + 1
    decreases |s| - k
  {
    var t := s + [Low(s[0], |s|)];
    if k < |s| {
      ReachGrows(s, k + 1);
      assert t[k] == s[k];
    } else {
      assert Reach(t, k + 1) == k + 1;
    }
  }

  /** A byte that continues a character adds none; alone it is a character. */
  lemma {:induction false} MoreAddsNone(s: seq<Byte>)
    requires Unfinished(s)
    ensures |Decode(s + [More(s)])| == |Decode(s)| && More(s) >= 0x80 && |Decode([More(s)])| == 1
    decreases |s|
  {
    var n, t := Taken(s), s + [More(s)];
    if n == |s| {
      ReachGrows(s, 1);
      assert t[n + 1..] == [] && s[n..] == [];
    } else {
      FirstAppended(s, [More(s)]);
      assert t[n..] == s[n..] + [More(s)];
      MoreAddsNone(s[n..]);
    }
    var m := More(s);
    assert [m][1..] == [];
  }

  lemma {:induction false} AsciiIsFinished(s: seq<Byte>)
    requires Ascii(s)
    ensures !Unfinished(s) && Decode(s) == s
    decreases |s|
  {
    if s != [] {
      assert Taken(s) == 1 && Value(s[..1]) == s[0];
      AsciiIsFinished(s[1..]);
      assert s == [s[0]] + s[1..];
    }
  }
}
