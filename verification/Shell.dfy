/**
Shell quoting: the words that the program writes for a remote shell, and how a POSIX shell reads
them back (app/App/SSH.swift, app/App/Upload.swift).
*/
module Shell {
  import opened Wrappers

  // ----- what the shell does -----

  /** Where the shell is in a word (sections 2.2 and 2.3 of the POSIX.1-2017 Shell Command Language). */
  datatype Mode = Plain | Escaped | InSingle | InDouble | EscapedInDouble

  datatype Problem = Special(c: char) | Unfinished

  /**
  The characters that a shell does not take literally outside quotes, without the quoting
  characters and the blanks. `=` and `%` are special only in assignments and job numbers, which
  stand before the arguments of a command.
  */
  predicate IsSpecial(c: char) {
    c in {'|', '&', ';', '<', '>', '(', ')', '$', '`', '*', '?', '[', '#', '~', '\n'}
  }

  predicate IsBlank(c: char) {
    c == ' ' || c == '\t'
  }

  function Begun(word: Option<string>): string {
    if word.Some? then word.value else ""
  }

  /**
  Splits the rest of a command line into words and removes the quotes. `word` is the word that has
  begun, if any. A line that needs an expansion or an operator is a problem.
  */
  function Scan(s: string, words: seq<string>, word: Option<string>, mode: Mode): Result<seq<string>, Problem> {
    if s == "" then
      if mode != Plain then Err(Unfinished)
      else Ok(if word.Some? then words + [word.value] else words)
    else
      var c, rest := s[0], s[1..];
      match mode
      case Plain =>
        if IsBlank(c) then Scan(rest, if word.Some? then words + [word.value] else words, None, Plain)
        else if c == '\'' then Scan(rest, words, Some(Begun(word)), InSingle)
        else if c == '\"' then Scan(rest, words, Some(Begun(word)), InDouble)
        else if c == '\\' then Scan(rest, words, word, Escaped)
        else if IsSpecial(c) then Err(Special(c))
        else Scan(rest, words, Some(Begun(word) + [c]), Plain)
      case Escaped => Scan(rest, words, if c == '\n' then word else Some(Begun(word) + [c]), Plain)
      case InSingle =>
        if c == '\'' then Scan(rest, words, word, Plain)
        else Scan(rest, words, Some(Begun(word) + [c]), InSingle)
      case InDouble =>
        if c == '\"' then Scan(rest, words, word, Plain)
        else if c == '$' || c == '`' then Err(Special(c))
        else if c == '\\' then Scan(rest, words, word, EscapedInDouble)
        else Scan(rest, words, Some(Begun(word) + [c]), InDouble)
      case EscapedInDouble =>
        if c == '\n' then Scan(rest, words, word, InDouble)
        else Scan(rest, words, Some(Begun(word) + (if c in {'$', '`', '\"', '\\'} then [c] else ['\\', c])), InDouble)
  }

  /** The words of a command line. */
  function Split(s: string): Result<seq<string>, Problem> {
    Scan(s, [], None, Plain)
  }

  // ----- what the program writes -----

  /** Every quote ends the single quotes, stands in double quotes, and opens the single quotes again. */
  function Inner(s: string): string {
    if s == "" then ""
    else (if s[0] == '\'' then "'\"'\"'" else [s[0]]) + Inner(s[1..])
  }

  function Quote(s: string): string {
    "'" + Inner(s) + "'"
  }

  function Join(words: seq<string>): string {
    if words == [] then ""
    else if |words| == 1 then words[0]
    else words[0] + " " + Join(words[1..])
  }

  function Quoted(words: seq<string>): seq<string> {
    if words == [] then [] else [Quote(words[0])] + Quoted(words[1..])
  }

  /** The command that `passenger` sends: without the agent's socket, unless the agent is forwarded. */
  function PassengerWords(arguments: seq<string>, forwardingAgent: bool): seq<string> {
    (if forwardingAgent then [] else ["/usr/bin/env", "-u", "SSH_AUTH_SOCK"]) + arguments
  }

  function Passenger(arguments: seq<string>, forwardingAgent: bool): string {
    "exec " + Join(Quoted(PassengerWords(arguments, forwardingAgent)))
  }

  /** The command that `recorded` sends. */
  function Recorded(arguments: seq<string>): string {
    "exec " + Join(Quoted(arguments))
  }

  predicate IsPlain(c: char) {
    || 'a' <= c <= 'z' || 'A' <= c <= 'Z' || '0' <= c <= '9'
    || c in {'.', '_', '/', '@', '%', '+', '=', ':', ',', '-'}
  }

  predicate IsControl(c: char) {
    c < ' ' || c == '\U{7F}'
  }

  function TextWord(path: string): string {
    if forall i :: 0 <= i < |path| ==> IsPlain(path[i]) then path else Quote(path)
  }

  function TextWords(paths: seq<string>): seq<string> {
    if paths == [] then [] else [TextWord(paths[0])] + TextWords(paths[1..])
  }

  /** The paths as text for a command line; none if a path holds a control character. */
  function Text(paths: seq<string>): Option<string> {
    if exists p, i :: p in paths && 0 <= i < |p| && IsControl(p[i]) then None else Some(Join(TextWords(paths)))
  }

  // ----- the shell reads back what was written -----

  lemma {:induction false} InnerIsRead(a: string, rest: string, words: seq<string>, t: string)
    ensures Scan(Inner(a) + "'" + rest, words, Some(t), InSingle) == Scan(rest, words, Some(t + a), Plain)
  {
    if a == "" {
      assert t + a == t;
      assert (Inner(a) + "'" + rest)[1..] == rest;
    } else {
      var tail := Inner(a[1..]) + "'" + rest;
      InnerIsRead(a[1..], rest, words, t + [a[0]]);
      assert t + [a[0]] + a[1..] == t + a;
      InnerStarts(a, rest);
      if a[0] == '\'' {
        QuoteMarkIsRead(tail, words, t);
      } else {
        CharIsRead(a[0], tail, words, t);
      }
    }
  }

  lemma {:induction false} InnerStarts(a: string, rest: string)
    requires a != ""
    ensures Inner(a) + "'" + rest == (if a[0] == '\'' then "'\"'\"'" else [a[0]]) + (Inner(a[1..]) + "'" + rest)
  {
    var first := if a[0] == '\'' then "'\"'\"'" else [a[0]];
    assert Inner(a) == first + Inner(a[1..]);
    assert (first + Inner(a[1..])) + "'" + rest == first + (Inner(a[1..]) + "'" + rest);
  }

  lemma {:induction false} CharIsRead(c: char, tail: string, words: seq<string>, t: string)
    requires c != '\''
    ensures Scan([c] + tail, words, Some(t), InSingle) == Scan(tail, words, Some(t + [c]), InSingle)
  {
    assert ([c] + tail)[1..] == tail;
  }

  /** One quote character, in each of the modes in which the inner text has one. */
  lemma {:induction false} MarkIsRead(c: char, tail: string, words: seq<string>, t: string)
    ensures c == '\'' ==>
              && Scan([c] + tail, words, Some(t), InSingle) == Scan(tail, words, Some(t), Plain)
              && Scan([c] + tail, words, Some(t), Plain) == Scan(tail, words, Some(t), InSingle)
              && Scan([c] + tail, words, Some(t), InDouble) == Scan(tail, words, Some(t + "'"), InDouble)
    ensures c == '\"' ==>
              && Scan([c] + tail, words, Some(t), Plain) == Scan(tail, words, Some(t), InDouble)
              && Scan([c] + tail, words, Some(t), InDouble) == Scan(tail, words, Some(t), Plain)
  {
    assert ([c] + tail)[1..] == tail && ([c] + tail)[0] == c;
    assert Begun(Some(t)) == t;
  }

  /** The five characters that stand for a quote inside single quotes. */
  lemma {:induction false} QuoteMarkIsRead(tail: string, words: seq<string>, t: string)
    ensures Scan("'\"'\"'" + tail, words, Some(t), InSingle) == Scan(tail, words, Some(t + "'"), InSingle)
  {
    var s4 := "'" + tail;
    var s3 := "\"" + s4;
    var s2 := "'" + s3;
    var s1 := "\"" + s2;
    assert "'\"'\"'" + tail == "'" + s1;
    MarkIsRead('\'', s1, words, t);
    MarkIsRead('\"', s2, words, t);
    MarkIsRead('\'', s3, words, t);
    MarkIsRead('\"', s4, words, t + "'");
    MarkIsRead('\'', tail, words, t + "'");
  }

  lemma {:induction false} QuoteIsRead(a: string, rest: string, words: seq<string>)
    ensures Scan(Quote(a) + rest, words, None, Plain) == Scan(rest, words, Some(a), Plain)
  {
    InnerIsRead(a, rest, words, "");
    assert (Quote(a) + rest)[1..] == Inner(a) + "'" + rest;
    assert "" + a == a;
  }

  lemma {:induction false} PlainIsRead(a: string, rest: string, words: seq<string>, word: Option<string>)
    requires forall i :: 0 <= i < |a| ==> IsPlain(a[i])
    ensures Scan(a + rest, words, word, Plain) == Scan(rest, words, if a == "" then word else Some(Begun(word) + a), Plain)
  {
    if a == "" {
      assert a + rest == rest;
    } else {
      var next := Some(Begun(word) + [a[0]]);
      assert IsPlain(a[0]) && (a + rest)[0] == a[0];
      assert Scan(a + rest, words, word, Plain) == Scan(a[1..] + rest, words, next, Plain) by {
        assert (a + rest)[1..] == a[1..] + rest;
      }
      PlainIsRead(a[1..], rest, words, next);
      assert Begun(word) + [a[0]] + a[1..] == Begun(word) + a;
      assert a[1..] == "" ==> a == [a[0]];
    }
  }

  /** `out` is read as the word `a` wherever a word may begin. */
  ghost predicate ReadsAs(out: string, a: string) {
    forall rest, words {:trigger Scan(out + rest, words, None, Plain)} ::
      Scan(out + rest, words, None, Plain) == Scan(rest, words, if out == "" then None else Some(a), Plain)
  }

  function Adding(words: seq<string>, out: string, a: string): seq<string> {
    if out == "" then words else words + [a]
  }

  lemma {:induction false} LastIsRead(out: string, a: string, words: seq<string>)
    requires ReadsAs(out, a)
    ensures Scan(out, words, None, Plain) == Ok(Adding(words, out, a))
  {
    assert out + "" == out;
    assert Scan(out + "", words, None, Plain) == Scan("", words, if out == "" then None else Some(a), Plain);
  }

  lemma {:induction false} NextIsRead(out: string, a: string, tail: string, words: seq<string>)
    requires ReadsAs(out, a)
    ensures Scan(out + " " + tail, words, None, Plain) == Scan(tail, Adding(words, out, a), None, Plain)
  {
    var rest := " " + tail;
    assert out + rest == out + " " + tail;
    assert rest[1..] == tail;
    assert Scan(out + rest, words, None, Plain) == Scan(rest, words, if out == "" then None else Some(a), Plain);
  }

  /** Joined with spaces, words that are read one by one are read as the whole list. */
  lemma {:induction false} JoinIsRead(outs: seq<string>, args: seq<string>, words: seq<string>)
    requires |outs| == |args| && forall i :: 0 <= i < |outs| ==> ReadsAs(outs[i], args[i])
    ensures Scan(Join(outs), words, None, Plain) == Ok(words + Kept(outs, args))
  {
    if outs == [] {
      assert words + Kept(outs, args) == words;
    } else {
      var now := Adding(words, outs[0], args[0]);
      assert words + Kept(outs, args) == now + Kept(outs[1..], args[1..]);
      if |outs| == 1 {
        LastIsRead(outs[0], args[0], words);
        assert now + Kept(outs[1..], args[1..]) == now;
      } else {
        NextIsRead(outs[0], args[0], Join(outs[1..]), words);
        JoinIsRead(outs[1..], args[1..], now);
      }
    }
  }

  /** The arguments whose written form is not empty. */
  function Kept(outs: seq<string>, args: seq<string>): seq<string>
    requires |outs| == |args|
  {
    if outs == [] then [] else (if outs[0] == "" then [] else [args[0]]) + Kept(outs[1..], args[1..])
  }

  lemma {:induction false} QuotedIsRead(args: seq<string>)
    ensures var outs := Quoted(args);
            && |outs| == |args| && (forall i :: 0 <= i < |outs| ==> ReadsAs(outs[i], args[i]))
            && Kept(outs, args) == args
  {
    if args != [] {
      forall rest, words {
        QuoteIsRead(args[0], rest, words);
      }
      QuotedIsRead(args[1..]);
    }
  }

  /** A shell reads the quoted words, joined with spaces, as exactly the list of words. */
  lemma {:induction false} QuotingRoundTrips(args: seq<string>)
    ensures Split(Join(Quoted(args))) == Ok(args)
  {
    QuotedIsRead(args);
    JoinIsRead(Quoted(args), args, []);
    assert [] + args == args;
  }

  lemma {:induction false} ExecRoundTrips(args: seq<string>)
    ensures Split("exec " + Join(Quoted(args))) == Ok(["exec"] + args)
  {
    var tail := " " + Join(Quoted(args));
    PlainIsRead("exec", tail, [], None);
    assert "exec" + tail == "exec " + Join(Quoted(args));
    assert tail[1..] == Join(Quoted(args));
    assert "" + "exec" == "exec";
    assert [] + ["exec"] == ["exec"];
    QuotedIsRead(args);
    JoinIsRead(Quoted(args), args, ["exec"]);
  }

  /** The remote shell runs exactly the words of a helper, never more and never fewer. */
  lemma {:induction false} CommandsRoundTrip(args: seq<string>, forwardingAgent: bool)
    ensures Split(Recorded(args)) == Ok(["exec"] + args)
    ensures Split(Passenger(args, forwardingAgent)) ==
            Ok(["exec"] + ((if forwardingAgent then [] else ["/usr/bin/env", "-u", "SSH_AUTH_SOCK"]) + args))
  {
    ExecRoundTrips(args);
    ExecRoundTrips(PassengerWords(args, forwardingAgent));
  }

  /** Quoting keeps what has no quote, between single quotes, and puts each quote into double quotes of its own. */
  lemma {:induction false} QuoteIs(a: string, b: string)
    requires '\'' !in a
    ensures Quote(a) == "'" + a + "'"
    ensures Inner(a + "'" + b) == a + "'\"'\"'" + Inner(b)
  {
    if a != "" {
      assert (a + "'" + b)[1..] == a[1..] + "'" + b;
      QuoteIs(a[1..], b);
      assert Quote(a[1..])[1..|a|] == Inner(a[1..]);
      assert a == [a[0]] + a[1..];
    } else {
      assert (a + "'" + b)[1..] == b;
    }
  }

  function NonEmpty(paths: seq<string>): seq<string> {
    if paths == [] then [] else (if paths[0] == "" then [] else [paths[0]]) + NonEmpty(paths[1..])
  }

  lemma {:induction false} TextIsRead(paths: seq<string>)
    ensures var outs := TextWords(paths);
            && |outs| == |paths| && (forall i :: 0 <= i < |outs| ==> ReadsAs(outs[i], paths[i]))
            && Kept(outs, paths) == NonEmpty(paths)
  {
    if paths != [] {
      var p := paths[0];
      if forall i :: 0 <= i < |p| ==> IsPlain(p[i]) {
        forall rest, words
          ensures Scan(p + rest, words, None, Plain) == Scan(rest, words, if p == "" then None else Some(p), Plain)
        {
          PlainIsRead(p, rest, words, None);
          assert "" + p == p;
        }
      } else {
        forall rest, words {
          QuoteIsRead(p, rest, words);
        }
      }
      TextIsRead(paths[1..]);
    }
  }

  /** A path of plain characters is written as it is; a path with a control character is refused, and no other is. */
  lemma {:induction false} TextOfOne(path: string)
    ensures Text([path]) ==
            if exists i :: 0 <= i < |path| && (path[i] < ' ' || path[i] == '\U{7F}') then None
            else if forall i :: 0 <= i < |path| ==> IsPlain(path[i]) then Some(path)
            else Some(Quote(path))
  {
    assert TextWords([path]) == [TextWord(path)];
    assert path in [path];
  }

  lemma {:induction false} NonEmptyIsShorter(paths: seq<string>)
    ensures |NonEmpty(paths)| <= |paths|
    ensures NonEmpty(paths) == paths <==> "" !in paths
  {
    if paths != [] {
      NonEmptyIsShorter(paths[1..]);
      assert paths == [paths[0]] + paths[1..];
      if paths[0] != "" {
        assert NonEmpty(paths)[1..] == NonEmpty(paths[1..]);
      }
    }
  }

  /**
  A shell reads the text of paths without control characters as the non-empty paths in their order,
  so it reads back the list exactly when no path is empty.
  */
  lemma {:induction false} TextRoundTrips(paths: seq<string>)
    requires Text(paths).Some?
    ensures Split(Text(paths).value) == Ok(NonEmpty(paths))
    ensures Split(Text(paths).value) == Ok(paths) <==> "" !in paths
  {
    TextIsRead(paths);
    JoinIsRead(TextWords(paths), paths, []);
    assert [] + NonEmpty(paths) == NonEmpty(paths);
    NonEmptyIsShorter(paths);
  }
}
