/**
The names under which files are uploaded: cleaned, and made unique by a search over numbered names
(app/App/Upload.swift).
*/
module UploadNames {
  import opened Sets
  import opened Wrappers

  const NAME_LIMIT: nat := 128

  predicate IsAllowed(c: char) {
    || 'a' <= c <= 'z' || 'A' <= c <= 'Z' || '0' <= c <= '9'
    || c in {'.', '_', '-'}
  }

  /** A name that stays inside its directory, is no option, and is not the hidden stream. */
  predicate IsSafe(name: string) {
    && name != "" && name[0] != '.' && name[0] != '-'
    && forall i :: 0 <= i < |name| ==> IsAllowed(name[i])
  }

  // ----- cleaning -----

  function Replaced(s: string): (r: string)
    ensures |r| == |s| && forall i :: 0 <= i < |s| ==> r[i] == (if IsAllowed(s[i]) then s[i] else '_')
  {
    seq(|s|, i requires 0 <= i < |s| => if IsAllowed(s[i]) then s[i] else '_')
  }

  function Cleaned(component: string): string {
    var all := Replaced(component);
    var name := if |all| > NAME_LIMIT then all[..NAME_LIMIT] else all;
    if name == "" then "_"
    else if name[0] == '.' || name[0] == '-' then "_" + name[1..]
    else name
  }

  lemma {:induction false} CleanedIsSafe(component: string)
    ensures IsSafe(Cleaned(component)) && |Cleaned(component)| <= NAME_LIMIT
    ensures IsSafe(component) && |component| <= NAME_LIMIT ==> Cleaned(component) == component
  {
  }

  const SMALL := "abcdefghijklmnopqrstuvwxyz"
  const LARGE := "ABCDEFGHIJKLMNOPQRSTUVWXYZ"

  predicate IsLetter(c: char) {
    c in SMALL || c in LARGE || c in "0123456789" || c in "._-"
  }

  lemma {:induction false} InOrder(s: string, c: char)
    requires s != "" && forall i :: 0 <= i < |s| ==> s[i] as int == s[0] as int + i
    ensures c in s <==> s[0] <= c <= s[|s| - 1]
  {
    if s[0] <= c <= s[|s| - 1] {
      assert s[c as int - s[0] as int] == c;
    }
  }

  lemma {:induction false} LettersAreAllowed(c: char)
    ensures IsLetter(c) <==> IsAllowed(c)
  {
    InOrder(SMALL, c);
    InOrder(LARGE, c);
    InOrder("0123456789", c);
  }

  /** Cleaning keeps the character at a place: it is one of the letters, and no dot or dash that begins the name. */
  predicate Kept(component: string, i: nat)
    requires i < |component|
  {
    IsLetter(component[i]) && !(i == 0 && (component[0] == '.' || component[0] == '-'))
  }

  /** Cleaning cuts a name to 128 characters and changes exactly the characters that it may not keep, to `_`. */
  lemma {:induction false} CleanedIs(component: string)
    ensures component == "" ==> Cleaned(component) == "_"
    ensures component != "" ==>
              && |Cleaned(component)| == (if |component| <= 128 then |component| else 128)
              && forall i :: 0 <= i < |Cleaned(component)| ==>
                   Cleaned(component)[i] == if Kept(component, i) then component[i] else '_'
  {
    if component == "" {
      return;
    }
    forall i | 0 <= i < |component| ensures Kept(component, i) <==> Stays(component, i) {
      LettersAreAllowed(component[i]);
    }
    CharactersAre(component);
  }

  predicate Stays(component: string, i: nat)
    requires i < |component|
  {
    IsAllowed(component[i]) && !(i == 0 && (component[0] == '.' || component[0] == '-'))
  }

  lemma {:induction false} CharactersAre(component: string)
    requires component != ""
    ensures |Cleaned(component)| == if |component| <= NAME_LIMIT then |component| else NAME_LIMIT
    ensures forall i :: 0 <= i < |Cleaned(component)| ==>
              Cleaned(component)[i] == if Stays(component, i) then component[i] else '_'
  {
  }

  // ----- case -----

  /** A name as a file system that folds case compares it. */
  function Folded(name: string): (r: string)
    ensures |r| == |name|
  {
    seq(|name|, i requires 0 <= i < |name| => if 'A' <= name[i] <= 'Z' then (name[i] as int + 32) as char else name[i])
  }

  /** No safe name stands for a hidden file. */
  lemma {:induction false} FoldedIsNotHidden(name: string)
    requires IsSafe(name)
    ensures name[0] != '.' && Folded(name)[0] != '.'
  {
  }

  // ----- decimal numbers -----

  function Digit(n: nat): char
    requires n < 10
  {
    ['0', '1', '2', '3', '4', '5', '6', '7', '8', '9'][n]
  }

  function Decimal(n: nat): (s: string)
    ensures s != "" && forall i :: 0 <= i < |s| ==> '0' <= s[i] <= '9'
  {
    if n < 10 then [Digit(n)] else Decimal(n / 10) + [Digit(n % 10)]
  }

  lemma {:induction false} DecimalIsInjective(m: nat, n: nat)
    requires Decimal(m) == Decimal(n)
    ensures m == n
  {
    var a, b := Decimal(m), Decimal(n);
    assert a[|a| - 1] == Digit(m % 10) && b[|b| - 1] == Digit(n % 10);
    assert m % 10 == n % 10;
    if m >= 10 && n >= 10 {
      assert Decimal(m / 10) == a[..|a| - 1] == b[..|b| - 1] == Decimal(n / 10);
      DecimalIsInjective(m / 10, n / 10);
    }
  }

  /** The number that a list of digits stands for, the digit of the ones being the last. */
  function Read(s: string): nat
    requires forall i :: 0 <= i < |s| ==> '0' <= s[i] <= '9'
  {
    if s == "" then 0 else Read(s[..|s| - 1]) * 10 + (s[|s| - 1] as int - '0' as int)
  }

  lemma {:induction false} DigitReads(n: nat)
    requires n < 10
    ensures '0' <= Digit(n) <= '9' && Digit(n) as int - '0' as int == n
  {
  }

  /** A decimal reads back as its number, and has no leading zero. */
  lemma {:induction false} DecimalReads(n: nat)
    ensures Read(Decimal(n)) == n && (n > 0 ==> Decimal(n)[0] != '0')
  {
    DigitReads(n % 10);
    var s := Decimal(n);
    if n < 10 {
      assert s[..0] == "" && Read("") == 0;
    } else {
      DecimalReads(n / 10);
      assert s[..|s| - 1] == Decimal(n / 10);
    }
  }

  // ----- numbered names -----

  /** The place of the last dot, or the end. */
  function LastDot(name: string): (k: nat)
    ensures k <= |name|
    ensures k < |name| ==> name[k] == '.' && forall i :: k < i < |name| ==> name[i] != '.'
    ensures k == |name| ==> '.' !in name
  {
    LastDotBefore(name, |name|)
  }

  function LastDotBefore(name: string, n: nat): (k: nat)
    requires n <= |name| && forall i :: n <= i < |name| ==> name[i] != '.'
    ensures k <= |name|
    ensures k < |name| ==> name[k] == '.' && forall i :: k < i < |name| ==> name[i] != '.'
    ensures k == |name| ==> '.' !in name
  {
    if n == 0 then |name| else if name[n - 1] == '.' then n - 1 else LastDotBefore(name, n - 1)
  }

  /** The `n`th name that the search tries: the name itself, and then a number before its extension. */
  function Numbered(name: string, n: nat): string
    requires n >= 1
  {
    if n == 1 then name
    else
      var dot := LastDot(name);
      name[..dot] + "-" + Decimal(n) + name[dot..]
  }

  lemma {:induction false} LastDotIs(stem: string, extension: string)
    requires extension != "" && extension[0] == '.' && '.' !in extension[1..]
    ensures LastDot(stem + extension) == |stem|
  {
    var name := stem + extension;
    assert name[|stem|] == '.';
    assert forall i :: |stem| < i < |name| ==> name[i] == extension[1..][i - |stem| - 1];
  }

  /** The number stands before the extension, behind a dash; a name without a dot has it at the end. */
  lemma {:induction false} NumberedIs(stem: string, extension: string, n: nat)
    requires n > 1
    requires if extension == "" then '.' !in stem else extension[0] == '.' && '.' !in extension[1..]
    ensures Numbered(stem + extension, 1) == stem + extension
    ensures Numbered(stem + extension, n) == stem + "-" + Decimal(n) + extension
  {
    if extension == "" {
      assert stem + extension == stem;
    } else {
      LastDotIs(stem, extension);
    }
    assert (stem + extension)[..|stem|] == stem && (stem + extension)[|stem|..] == extension;
  }

  lemma {:induction false} NumberedIsInjective(name: string, m: nat, n: nat)
    requires m >= 1 && n >= 1 && Numbered(name, m) == Numbered(name, n)
    ensures m == n
  {
    var dot := LastDot(name);
    assert |Numbered(name, 1)| == |name|;
    if m > 1 && n > 1 {
      var a, b := Numbered(name, m), Numbered(name, n);
      assert Decimal(m) == a[dot + 1..|a| - (|name| - dot)];
      assert Decimal(n) == b[dot + 1..|b| - (|name| - dot)];
      DecimalIsInjective(m, n);
    }
  }

  lemma {:induction false} NumberedIsSafe(name: string, n: nat)
    requires IsSafe(name) && n >= 1
    ensures IsSafe(Numbered(name, n))
  {
    if n > 1 {
      var dot := LastDot(name);
      assert dot > 0;
      assert Numbered(name, n)[0] == name[0];
    }
  }

  /** The first names that the search tries. */
  function Tried(name: string, n: nat): set<string> {
    if n == 0 then {} else Tried(name, n - 1) + {Numbered(name, n)}
  }

  lemma {:induction false} TriedAreDistinct(name: string, n: nat)
    ensures |Tried(name, n)| == n
    ensures forall x :: x in Tried(name, n) ==> exists m :: 1 <= m <= n && x == Numbered(name, m)
  {
    if n > 0 {
      TriedAreDistinct(name, n - 1);
      if Numbered(name, n) in Tried(name, n - 1) {
        var m :| 1 <= m <= n - 1 && Numbered(name, n) == Numbered(name, m);
        NumberedIsInjective(name, m, n);
        assert false;
      }
    }
  }

  /** Distinct names do not fit into fewer places. */
  lemma {:induction false} Pigeonhole(name: string, taken: seq<string>, n: nat)
    requires forall m :: 1 <= m <= n ==> Numbered(name, m) in taken
    ensures n <= |taken|
  {
    TriedAreDistinct(name, n);
    SetOfSeqIsNoLarger(taken);
    SubsetIsNoLarger(Tried(name, n), set x | x in taken);
  }

  /** The search ends at the first numbered name that is free, after at most one step for each taken name. */
  method Unique(name: string, taken: seq<string>) returns (unique: string, n: nat)
    ensures 1 <= n <= |taken| + 1 && unique == Numbered(name, n) && unique !in taken
    ensures forall m :: 1 <= m < n ==> Numbered(name, m) in taken
  {
    unique, n := name, 1;
    while unique in taken
      invariant 1 <= n <= |taken| + 1 && unique == Numbered(name, n)
      invariant forall m :: 1 <= m < n ==> Numbered(name, m) in taken
      decreases |taken| + 1 - n
    {
      Pigeonhole(name, taken, n);
      n := n + 1;
      unique := Numbered(name, n);
    }
  }
}
