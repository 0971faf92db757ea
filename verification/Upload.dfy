/**
An upload: the sources and their names, the stream that carries all of them, and the remote script
that cuts the stream back into files (app/App/Upload.swift).
*/
module Upload {
  import opened Wrappers
  import opened UploadNames

  type Data = seq<bv8>

  const FILE_LIMIT: nat := 0x400_0000
  const COUNT_LIMIT: nat := 16
  const TOTAL_LIMIT: nat := 0x1000_0000
  const CHUNK: nat := 0x10_0000
  const STREAM := ".stream"

  // ----- the sources -----

  /** `contents` is what the open handle yields when the file is sent; the file may have changed since. */
  datatype Bytes = File(contents: Data, path: string) | Memory(data: Data)

  datatype Source = Source(name: string, size: nat, bytes: Bytes)

  datatype Failure = NoFiles | TooManyFiles | NotOnDisk | NotRegular | NotOpened | FileTooLarge | AllTooLarge

  /** A file as `lstat`, `open` and `fstat` find it. */
  datatype Found = Found(component: string, path: string, problem: Option<Failure>, size: nat, contents: Data)

  function Problem(f: Found, copying: bool): Option<Failure> {
    if f.problem.Some? then f.problem
    else if copying && f.size > FILE_LIMIT then Some(FileTooLarge)
    else None
  }

  function FirstProblem(files: seq<Found>, copying: bool): Option<Failure> {
    if files == [] then None
    else
      var before := FirstProblem(files[..|files| - 1], copying);
      if before.Some? then before else Problem(files[|files| - 1], copying)
  }

  function TotalFound(files: seq<Found>): nat {
    if files == [] then 0 else TotalFound(files[..|files| - 1]) + files[|files| - 1].size
  }

  /** Why the files are not uploaded, if they are not. */
  function Refusal(files: seq<Found>, copying: bool): Option<Failure> {
    if files == [] then Some(NoFiles)
    else if |files| > COUNT_LIMIT then Some(TooManyFiles)
    else if FirstProblem(files, copying).Some? then FirstProblem(files, copying)
    else if copying && TotalFound(files) > TOTAL_LIMIT then Some(AllTooLarge)
    else None
  }

  function Names(sources: seq<Source>): seq<string> {
    seq(|sources|, i requires 0 <= i < |sources| => sources[i].name)
  }

  /** What the remote script needs of the names. */
  ghost predicate SafeNames(names: seq<string>) {
    && (forall i :: 0 <= i < |names| ==> IsSafe(names[i]))
    && (forall i, j :: 0 <= i < j < |names| ==> names[i] != names[j])
  }

  /** The source of a file: its bytes, and its cleaned name with the first number that no earlier source has. */
  ghost predicate Made(sources: seq<Source>, i: nat, f: Found)
    requires i < |sources|
  {
    && sources[i].size == f.size && sources[i].bytes == File(f.contents, f.path)
    && exists n :: n >= 1 && sources[i].name == Numbered(Cleaned(f.component), n)
         && forall m :: 1 <= m < n ==> Numbered(Cleaned(f.component), m) in Names(sources[..i])
  }

  ghost predicate AllMade(sources: seq<Source>, files: seq<Found>)
    requires |sources| == |files|
  {
    forall i :: 0 <= i < |files| ==> Made(sources, i, files[i])
  }

  lemma {:induction false} OneMore(files: seq<Found>, k: nat, copying: bool)
    requires k < |files|
    ensures files[..k + 1] == files[..k] + [files[k]]
    ensures TotalFound(files[..k + 1]) == TotalFound(files[..k]) + files[k].size
    ensures var before := FirstProblem(files[..k], copying);
            FirstProblem(files[..k + 1], copying) == if before.Some? then before else Problem(files[k], copying)
  {
    assert files[..k + 1][..k] == files[..k];
  }

  /** One more source, under the first name that is free. */
  method Append(sources: seq<Source>, file: Found, ghost files: seq<Found>) returns (more: seq<Source>)
    requires |sources| == |files| && SafeNames(Names(sources)) && AllMade(sources, files)
    ensures |more| == |sources| + 1 && SafeNames(Names(more)) && AllMade(more, files + [file])
  {
    var unique, n := Unique(Cleaned(file.component), Names(sources));
    var source := Source(unique, file.size, File(file.contents, file.path));
    SourceJoins(sources, files, source, file, n);
    more := sources + [source];
  }

  /** The loop over the files, up to the first that is refused. */
  method Collect(files: seq<Found>, copying: bool) returns (sources: seq<Source>, total: nat, problem: Option<Failure>)
    ensures problem == FirstProblem(files, copying)
    ensures problem == None ==> |sources| == |files| && total == TotalFound(files)
    ensures problem == None ==> SafeNames(Names(sources)) && AllMade(sources, files)
  {
    sources, total := [], 0;
    for k := 0 to |files|
      invariant |sources| == k && SafeNames(Names(sources))
      invariant FirstProblem(files[..k], copying) == None && total == TotalFound(files[..k])
      invariant AllMade(sources, files[..k])
    {
      var file := files[k];
      OneMore(files, k, copying);
      problem := Problem(file, copying);
      if problem.Some? {
        LaterProblems(files, k + 1, copying);
        return;
      }
      sources := Append(sources, file, files[..k]);
      total := total + file.size;
    }
    assert files[..|files|] == files;
    problem := None;
  }

  method Init(files: seq<Found>, copying: bool) returns (r: Result<seq<Source>, Failure>)
    ensures r.Err? <==> Refusal(files, copying).Some?
    ensures r.Err? ==> Refusal(files, copying) == Some(r.error)
    ensures r.Ok? ==> |r.value| == |files| && SafeNames(Names(r.value)) && AllMade(r.value, files)
    ensures RefusedRightly(files, copying, r)
  {
    RefusalIs(files, copying);
    if files == [] {
      return Err(NoFiles);
    }
    if |files| > COUNT_LIMIT {
      return Err(TooManyFiles);
    }
    var sources, total, problem := Collect(files, copying);
    if problem.Some? {
      return Err(problem.value);
    }
    if copying && total > TOTAL_LIMIT {
      return Err(AllTooLarge);
    }
    return Ok(sources);
  }

  /** A file may be uploaded: it was opened and, if it is to be copied, has at most 64 MiB. */
  predicate Fine(f: Found, copying: bool) {
    f.problem == None && (copying ==> f.size <= 64 * 1024 * 1024)
  }

  function Flaw(f: Found): Failure {
    if f.problem.Some? then f.problem.value else FileTooLarge
  }

  function SumOfSizes(files: seq<Found>): nat {
    if files == [] then 0 else files[0].size + SumOfSizes(files[1..])
  }

  /** The first file that may not be uploaded. */
  predicate FirstBad(files: seq<Found>, copying: bool, i: nat) {
    i < |files| && !Fine(files[i], copying) && forall j :: 0 <= j < i ==> Fine(files[j], copying)
  }

  /**
  Files are accepted exactly if there are between 1 and 16, each is fine, and to be copied they have at
  most 256 MiB together; the error is of the count, of the first bad file, or of the sum, in this order.
  */
  ghost predicate RefusedRightly<T>(files: seq<Found>, copying: bool, r: Result<T, Failure>) {
    && (r.Ok? <==>
          && 1 <= |files| <= 16
          && (forall i :: 0 <= i < |files| ==> Fine(files[i], copying))
          && (copying ==> SumOfSizes(files) <= 256 * 1024 * 1024))
    && (r.Err? ==>
          if files == [] then r.error == NoFiles
          else if |files| > 16 then r.error == TooManyFiles
          else if forall i :: 0 <= i < |files| ==> Fine(files[i], copying) then r.error == AllTooLarge
          else exists i: nat :: FirstBad(files, copying, i) && r.error == Flaw(files[i]))
  }

  lemma {:induction false} SumAppended(files: seq<Found>, f: Found)
    ensures SumOfSizes(files + [f]) == SumOfSizes(files) + f.size
  {
    if files == [] {
      assert files + [f] == [f];
      assert SumOfSizes([f]) == f.size + SumOfSizes([f][1..]);
    } else {
      SumAppended(files[1..], f);
      assert (files + [f])[1..] == files[1..] + [f];
    }
  }

  lemma {:induction false} TotalIsSum(files: seq<Found>)
    ensures TotalFound(files) == SumOfSizes(files)
  {
    if files != [] {
      var n := |files| - 1;
      TotalIsSum(files[..n]);
      SumAppended(files[..n], files[n]);
      assert files == files[..n] + [files[n]];
    }
  }

  lemma {:induction false} FirstProblemIs(files: seq<Found>, copying: bool)
    ensures FirstProblem(files, copying) == None <==> forall i :: 0 <= i < |files| ==> Fine(files[i], copying)
    ensures FirstProblem(files, copying).Some? ==>
              exists i: nat :: FirstBad(files, copying, i) && FirstProblem(files, copying) == Some(Flaw(files[i]))
  {
    if files != [] {
      var n := |files| - 1;
      FirstProblemIs(files[..n], copying);
      assert files == files[..n] + [files[n]];
      if FirstProblem(files[..n], copying).Some? {
        var i: nat :| FirstBad(files[..n], copying, i) && FirstProblem(files[..n], copying) == Some(Flaw(files[i]));
        assert FirstBad(files, copying, i);
      } else if !Fine(files[n], copying) {
        assert FirstBad(files, copying, n);
      }
    }
  }

  lemma {:induction false} RefusalIs(files: seq<Found>, copying: bool)
    ensures var refusal := Refusal(files, copying);
            RefusedRightly(files, copying, if refusal.Some? then Err(refusal.value) else Ok(()))
  {
    TotalIsSum(files);
    FirstProblemIs(files, copying);
  }

  lemma {:induction false} LaterProblems(files: seq<Found>, k: nat, copying: bool)
    requires k <= |files| && FirstProblem(files[..k], copying).Some?
    ensures FirstProblem(files, copying) == FirstProblem(files[..k], copying)
  {
    if k == |files| {
      assert files[..k] == files;
    } else {
      assert files[..|files| - 1][..k] == files[..k];
      LaterProblems(files[..|files| - 1], k, copying);
    }
  }

  /** The next source keeps the names safe and the earlier sources as they were made. */
  lemma {:induction false} SourceJoins(sources: seq<Source>, files: seq<Found>, next: Source, file: Found, n: nat)
    requires |sources| == |files| && SafeNames(Names(sources)) && AllMade(sources, files)
    requires n >= 1 && next == Source(Numbered(Cleaned(file.component), n), file.size, File(file.contents, file.path))
    requires next.name !in Names(sources)
    requires forall m :: 1 <= m < n ==> Numbered(Cleaned(file.component), m) in Names(sources)
    ensures SafeNames(Names(sources + [next])) && AllMade(sources + [next], files + [file])
  {
    var more := sources + [next];
    CleanedIsSafe(file.component);
    NumberedIsSafe(Cleaned(file.component), n);
    assert Names(more) == Names(sources) + [next.name];
    forall i | 0 <= i < |more| ensures Made(more, i, (files + [file])[i]) {
      if i < |sources| {
        assert Made(sources, i, files[i]);
        assert more[..i] == sources[..i];
      } else {
        assert more[..i] == sources;
      }
    }
  }

  // ----- the stream -----

  function MinNat(a: nat, b: nat): nat {
    if a <= b then a else b
  }

  /** The bytes that a source contributes to the stream. */
  function Offered(s: Source): Data {
    match s.bytes
    case Memory(data) => data
    case File(contents, _) => contents[..MinNat(s.size, |contents|)]
  }

  /** The source yields as many bytes as it declared. */
  predicate Intact(s: Source) {
    |Offered(s)| == s.size
  }

  /** A file contributes as many of its first bytes as it declared, if it has them; data in memory all of its bytes. */
  lemma {:induction false} IntactExactly(s: Source)
    ensures s.bytes.Memory? ==> Offered(s) == s.bytes.data && (Intact(s) <==> |s.bytes.data| == s.size)
    ensures s.bytes.File? ==> (Intact(s) <==> s.size <= |s.bytes.contents|)
    ensures s.bytes.File? ==> Offered(s) == if Intact(s) then s.bytes.contents[..s.size] else s.bytes.contents
  {
  }

  /** All that is sent through a pipe that does not break: a file that has become shorter ends it. */
  function Sent(sources: seq<Source>): Data {
    if sources == [] then []
    else Offered(sources[0]) + (if sources[0].bytes.File? && !Intact(sources[0]) then [] else Sent(sources[1..]))
  }

  /** A write to a pipe that breaks after `capacity` bytes. */
  method WritePipe(stream: Data, chunk: Data, capacity: nat) returns (written: Data, ok: bool)
    requires |stream| <= capacity
    ensures ok <==> |stream| + |chunk| <= capacity
    ensures written == (stream + chunk)[..MinNat(|stream| + |chunk|, capacity)]
  {
    ok := |stream| + |chunk| <= capacity;
    written := (stream + chunk)[..MinNat(|stream| + |chunk|, capacity)];
  }

  /** What arrives of `all` through a pipe that breaks after `capacity` bytes. */
  function Arrived(all: Data, capacity: nat): Data {
    all[..MinNat(|all|, capacity)]
  }

  /** The loop over the chunks of one file; `complete` says whether all declared bytes were written. */
  method SendFile(stream: Data, contents: Data, size: nat, capacity: nat) returns (written: Data, complete: bool)
    requires |stream| <= capacity
    ensures written == Arrived(stream + contents[..MinNat(size, |contents|)], capacity)
    ensures complete <==> size <= |contents| && |stream| + size <= capacity
  {
    ghost var all := contents[..MinNat(size, |contents|)];
    var left, at := size, 0;
    written := stream;
    while left > 0 && at < |contents|
      invariant at + left == size && at <= |all|
      invariant written == stream + all[..at] && |written| <= capacity
      decreases left
    {
      var most := MinNat(MinNat(left, CHUNK), |contents| - at);
      var got: nat :| 1 <= got <= most;
      var chunk := contents[at..at + got];
      assert all[..at] + chunk == all[..at + got];
      assert written + chunk == stream + (all[..at] + chunk);
      var ok;
      written, ok := WritePipe(written, chunk, capacity);
      if !ok {
        return written, false;
      }
      left, at := left - got, at + got;
    }
    assert all[..at] == all;
    complete := left == 0;
  }

  method Send(sources: seq<Source>, capacity: nat) returns (stream: Data)
    ensures stream == Arrived(Sent(sources), capacity)
  {
    stream := [];
    for k := 0 to |sources|
      invariant |stream| <= capacity
      invariant Sent(sources) == stream + Sent(sources[k..])
    {
      var source := sources[k];
      ghost var later := Later(sources, k);
      ghost var before := stream;
      SentSplits(sources, stream, k);
      ArrivedCuts(before + Offered(source), later, capacity);
      var ok;
      match source.bytes {
        case Memory(data) => stream, ok := WritePipe(stream, data, capacity);
        case File(contents, _) => stream, ok := SendFile(stream, contents, source.size, capacity);
      }
      if !ok {
        return;
      }
    }
  }

  /** What is sent after source `k`. */
  ghost function Later(sources: seq<Source>, k: nat): Data
    requires k < |sources|
  {
    if sources[k].bytes.File? && !Intact(sources[k]) then [] else Sent(sources[k + 1..])
  }

  lemma {:induction false} SentSplits(sources: seq<Source>, before: Data, k: nat)
    requires k < |sources|
    ensures before + Sent(sources[k..]) == (before + Offered(sources[k])) + Later(sources, k)
  {
    assert sources[k..][1..] == sources[k + 1..];
  }

  lemma {:induction false} ArrivedCuts(a: Data, b: Data, capacity: nat)
    ensures |a| > capacity ==> Arrived(a + b, capacity) == Arrived(a, capacity)
    ensures |a| <= capacity ==> Arrived(a, capacity) == a
    ensures b == [] ==> Arrived(a + b, capacity) == Arrived(a, capacity)
  {
    assert b == [] ==> a + b == a;
  }

  // ----- the script -----

  datatype Refused = Short(name: string) | LongStream

  type Directory = map<string, Data>

  /** `tail -c +offset`, which counts from 1, and `head -c size`. */
  function Piece(stream: Data, offset: nat, size: nat): Data
    requires offset >= 1
  {
    var tail := if offset - 1 <= |stream| then stream[offset - 1..] else [];
    tail[..MinNat(size, |tail|)]
  }

  function StreamOf(stage: Directory): Data {
    if STREAM in stage then stage[STREAM] else []
  }

  /** The cutting loop, and the checks and the move that end the script. */
  function Cut(stage: Directory, args: seq<(string, nat)>, offset: nat): Result<Directory, Refused>
    requires offset >= 1
    decreases |args|
  {
    if args == [] then
      if |StreamOf(stage)| != offset - 1 then Err(LongStream) else Ok(stage - {STREAM})
    else
      var (name, size) := args[0];
      var next := stage[name := Piece(StreamOf(stage), offset, size)];
      if |next[name]| != size then Err(Short(name)) else Cut(next, args[1..], offset + size)
  }

  function RunScript(stream: Data, args: seq<(string, nat)>): Result<Directory, Refused> {
    Cut(map[STREAM := stream], args, 1)
  }

  method Script(stream: Data, args: seq<(string, nat)>) returns (r: Result<Directory, Refused>)
    ensures r == RunScript(stream, args)
  {
    var stage: Directory := map[STREAM := stream];
    var offset := 1;
    var rest := args;
    while rest != []
      invariant offset >= 1 && STREAM in stage
      invariant Cut(stage, rest, offset) == RunScript(stream, args)
      decreases |rest|
    {
      var name, size := rest[0].0, rest[0].1;
      rest := rest[1..];
      if size == 0 {
        stage := stage[name := []];
      } else {
        stage := stage[name := Piece(stage[STREAM], offset, size)];
      }
      if |stage[name]| != size {
        return Err(Short(name));
      }
      offset := offset + size;
    }
    if |stage[STREAM]| != offset - 1 {
      return Err(LongStream);
    }
    return Ok(stage - {STREAM});
  }

  // ----- what is published -----

  function Arguments(sources: seq<Source>): seq<(string, nat)> {
    if sources == [] then [] else [(sources[0].name, sources[0].size)] + Arguments(sources[1..])
  }

  function Total(args: seq<(string, nat)>): nat {
    if args == [] then 0 else args[0].1 + Total(args[1..])
  }

  /** No file takes the stream's place. */
  predicate SparesStream(args: seq<(string, nat)>) {
    forall i :: 0 <= i < |args| ==> args[i].0 != STREAM
  }

  /** The files that the loop makes of a stream, from a place on; of two with one name the later stays. */
  function Files(stream: Data, args: seq<(string, nat)>, at: nat): Directory
    requires at + Total(args) <= |stream|
  {
    if args == [] then map[]
    else map[args[0].0 := stream[at..at + args[0].1]] + Files(stream, args[1..], at + args[0].1)
  }

  lemma {:induction false} CutPublishes(stage: Directory, args: seq<(string, nat)>, at: nat)
    requires SparesStream(args) && STREAM in stage && at <= |stage[STREAM]|
    ensures var r, stream := Cut(stage, args, at + 1), stage[STREAM];
            && (r.Ok? <==> at + Total(args) == |stream|)
            && (r.Ok? ==> r.value == (stage - {STREAM}) + Files(stream, args, at))
    decreases |args|
  {
    var stream := stage[STREAM];
    if args != [] {
      var (name, size) := args[0];
      if at + size <= |stream| {
        var next := stage[name := stream[at..at + size]];
        assert Piece(stream, at + 1, size) == stream[at..at + size];
        assert name != STREAM && SparesStream(args[1..]);
        CutPublishes(next, args[1..], at + size);
        if at + Total(args) == |stream| {
          FirstFileJoins(stage, stream, args, at);
        }
      }
    }
  }

  lemma {:induction false} FirstFileJoins(stage: Directory, stream: Data, args: seq<(string, nat)>, at: nat)
    requires args != [] && args[0].0 != STREAM && at + Total(args) <= |stream|
    ensures var (name, size) := args[0];
            (stage[name := stream[at..at + size]] - {STREAM}) + Files(stream, args[1..], at + size)
            == (stage - {STREAM}) + Files(stream, args, at)
  {
    var (name, size) := args[0];
    Overriding(stage - {STREAM}, name, stream[at..at + size], Files(stream, args[1..], at + size));
    assert stage[name := stream[at..at + size]] - {STREAM} == (stage - {STREAM})[name := stream[at..at + size]];
  }

  lemma {:induction false} Overriding(early: Directory, name: string, data: Data, later: Directory)
    ensures early[name := data] + later == early + (map[name := data] + later)
  {
  }

  /** An upload is published exactly if the stream is as long as the declared sizes say, and then whole. */
  lemma {:induction false} ScriptPublishes(stream: Data, args: seq<(string, nat)>)
    requires SparesStream(args)
    ensures RunScript(stream, args).Ok? <==> |stream| == Total(args)
    ensures |stream| == Total(args) ==> RunScript(stream, args).value == Files(stream, args, 0)
  {
    CutPublishes(map[STREAM := stream], args, 0);
    assert map[STREAM := stream] - {STREAM} == map[];
  }

  /** Each name with exactly the bytes of the last source that has it. */
  function Expected(sources: seq<Source>): Directory {
    if sources == [] then map[] else map[sources[0].name := Offered(sources[0])] + Expected(sources[1..])
  }

  lemma {:induction false} SentLength(sources: seq<Source>)
    requires forall s :: s in sources && s.bytes.Memory? ==> Intact(s)
    ensures |Sent(sources)| <= Total(Arguments(sources))
    ensures |Sent(sources)| == Total(Arguments(sources)) <==> forall s :: s in sources ==> Intact(s)
  {
    if sources != [] {
      SentLength(sources[1..]);
      assert sources == [sources[0]] + sources[1..];
    }
  }

  predicate AllIntact(sources: seq<Source>) {
    forall i :: 0 <= i < |sources| ==> Intact(sources[i])
  }

  lemma {:induction false} FilesAreExpected(stream: Data, sources: seq<Source>, at: nat)
    requires at <= |stream| && stream[at..] == Sent(sources) && AllIntact(sources)
    ensures at + Total(Arguments(sources)) == |stream| && Files(stream, Arguments(sources), at) == Expected(sources)
    decreases |sources|
  {
    if sources != [] {
      SentOfIntact(sources);
      FirstSlice(stream, sources[0], sources[1..], at);
      FilesAreExpected(stream, sources[1..], at + sources[0].size);
      FilesOfFirst(stream, sources, at);
    }
  }

  lemma {:induction false} SentOfIntact(sources: seq<Source>)
    requires sources != [] && AllIntact(sources)
    ensures Intact(sources[0]) && AllIntact(sources[1..]) && Sent(sources) == Offered(sources[0]) + Sent(sources[1..])
  {
  }

  lemma {:induction false} FirstSlice(stream: Data, s: Source, later: seq<Source>, at: nat)
    requires at <= |stream| && Intact(s) && stream[at..] == Offered(s) + Sent(later)
    ensures at + s.size <= |stream| && stream[at..at + s.size] == Offered(s) && stream[at + s.size..] == Sent(later)
  {
    Slices(stream, at, Offered(s), Sent(later));
  }

  lemma {:induction false} FilesOfFirst(stream: Data, sources: seq<Source>, at: nat)
    requires sources != [] && at + sources[0].size + Total(Arguments(sources[1..])) <= |stream|
    ensures var s, args := sources[0], Arguments(sources);
            && Total(args) == s.size + Total(Arguments(sources[1..]))
            && Files(stream, args, at)
               == map[s.name := stream[at..at + s.size]] + Files(stream, Arguments(sources[1..]), at + s.size)
  {
    assert Arguments(sources)[1..] == Arguments(sources[1..]);
  }

  lemma {:induction false} Slices(stream: Data, at: nat, a: Data, b: Data)
    requires at <= |stream| && stream[at..] == a + b
    ensures at + |a| <= |stream| && stream[at..at + |a|] == a && stream[at + |a|..] == b
  {
    assert stream[at..at + |a|] == stream[at..][..|a|];
    assert stream[at + |a|..] == stream[at..][|a|..];
  }

  lemma {:induction false} ArgumentsAre(sources: seq<Source>)
    ensures |Arguments(sources)| == |sources|
    ensures forall i :: 0 <= i < |sources| ==> Arguments(sources)[i] == (sources[i].name, sources[i].size)
  {
    if sources != [] {
      ArgumentsAre(sources[1..]);
    }
  }

  /**
  From the sources to the published directory: it appears exactly if every file still has its
  declared size and the pipe carries everything, and then each name has the bytes of its last source.
  */
  lemma {:induction false} UploadPublishes(sources: seq<Source>, capacity: nat)
    requires SparesStream(Arguments(sources)) && forall s :: s in sources && s.bytes.Memory? ==> Intact(s)
    ensures var r := RunScript(Arrived(Sent(sources), capacity), Arguments(sources));
            && (r.Ok? <==> (forall s :: s in sources ==> Intact(s)) && Total(Arguments(sources)) <= capacity)
            && (r.Ok? ==> r.value == Expected(sources))
  {
    var all, args := Sent(sources), Arguments(sources);
    SentLength(sources);
    ScriptPublishes(Arrived(all, capacity), args);
    if |Arrived(all, capacity)| == Total(args) {
      assert Arrived(all, capacity) == all;
      assert all[0..] == all;
      FilesAreExpected(all, sources, 0);
    }
  }

  // ----- the remote file system -----

  /** The file that a name stands for: some file systems fold case. */
  function Key(folds: bool, name: string): string {
    if folds then Folded(name) else name
  }

  /** The sources under the files that their names stand for. */
  function Keyed(sources: seq<Source>, folds: bool): seq<Source> {
    seq(|sources|, i requires 0 <= i < |sources| => sources[i].(name := Key(folds, sources[i].name)))
  }

  lemma {:induction false} KeyedSends(sources: seq<Source>, folds: bool)
    ensures Sent(Keyed(sources, folds)) == Sent(sources)
    ensures Total(Arguments(Keyed(sources, folds))) == Total(Arguments(sources))
  {
    if sources != [] {
      KeyedSends(sources[1..], folds);
      assert Keyed(sources, folds)[1..] == Keyed(sources[1..], folds);
    }
  }

  lemma {:induction false} KeyedSparesStream(sources: seq<Source>, folds: bool)
    requires SafeNames(Names(sources))
    ensures SparesStream(Arguments(Keyed(sources, folds)))
  {
    ArgumentsAre(Keyed(sources, folds));
    forall i | 0 <= i < |sources| ensures Key(folds, sources[i].name) != STREAM {
      assert IsSafe(Names(sources)[i]);
      FoldedIsNotHidden(sources[i].name);
    }
  }

  /** On any remote file system, an upload is published exactly if everything declared was sent and arrived. */
  lemma {:induction false} UploadIsPublished(sources: seq<Source>, capacity: nat, folds: bool)
    requires SafeNames(Names(sources)) && forall i :: 0 <= i < |sources| && sources[i].bytes.Memory? ==> Intact(sources[i])
    ensures var r := RunScript(Arrived(Sent(sources), capacity), Arguments(Keyed(sources, folds)));
            && (r.Ok? <==> AllIntact(sources) && Total(Arguments(sources)) <= capacity)
            && (r.Ok? ==> r.value == Expected(Keyed(sources, folds)))
  {
    var keyed := Keyed(sources, folds);
    KeyedSends(sources, folds);
    KeyedSparesStream(sources, folds);
    forall s | s in keyed && s.bytes.Memory? ensures Intact(s) {
      var i :| 0 <= i < |keyed| && keyed[i] == s;
      assert Intact(sources[i]);
    }
    UploadPublishes(keyed, capacity);
    KeyedIsIntact(sources, folds);
  }

  lemma {:induction false} KeyedIsIntact(sources: seq<Source>, folds: bool)
    ensures (forall s :: s in Keyed(sources, folds) ==> Intact(s)) <==> AllIntact(sources)
  {
    var keyed := Keyed(sources, folds);
    forall i | 0 <= i < |sources| ensures keyed[i] in keyed && (Intact(keyed[i]) <==> Intact(sources[i])) {
    }
  }

  /** Each source's bytes are in its file. */
  predicate Faithful(directory: Directory, sources: seq<Source>) {
    forall i :: 0 <= i < |sources| ==> sources[i].name in directory && directory[sources[i].name] == Offered(sources[i])
  }

  /** Sources of one file agree on its bytes. */
  predicate Agree(sources: seq<Source>) {
    forall i, j :: 0 <= i < j < |sources| && sources[i].name == sources[j].name ==> Offered(sources[i]) == Offered(sources[j])
  }

  /** The last source of a file decides what is in it. */
  lemma {:induction false} LastStays(sources: seq<Source>, j: nat)
    requires j < |sources| && forall k :: j < k < |sources| ==> sources[k].name != sources[j].name
    ensures sources[j].name in Expected(sources) && Expected(sources)[sources[j].name] == Offered(sources[j])
  {
    if j > 0 {
      LastStays(sources[1..], j - 1);
    } else {
      ExpectedNames(sources[1..]);
    }
  }

  lemma {:induction false} ExpectedNames(sources: seq<Source>)
    ensures forall name :: name in Expected(sources) <==> exists k :: 0 <= k < |sources| && sources[k].name == name
  {
    if sources != [] {
      ExpectedNames(sources[1..]);
      assert forall k :: 0 < k < |sources| ==> sources[k] == sources[1..][k - 1];
      assert forall k :: 0 <= k < |sources| - 1 ==> sources[1..][k] == sources[k + 1];
    }
  }

  /** The position of the last source of a file. */
  lemma {:induction false} LastOf(sources: seq<Source>, i: nat) returns (j: nat)
    requires i < |sources|
    ensures i <= j < |sources| && sources[j].name == sources[i].name
    ensures forall k :: j < k < |sources| ==> sources[k].name != sources[i].name
  {
    j := i;
    var k := i + 1;
    while k < |sources|
      invariant i <= j < k <= |sources| && sources[j].name == sources[i].name
      invariant forall m :: j < m < k ==> sources[m].name != sources[i].name
    {
      if sources[k].name == sources[i].name {
        j := k;
      }
      k := k + 1;
    }
  }

  /** The published directory has every source's bytes exactly if sources of one file agree. */
  lemma {:induction false} FaithfulExactly(sources: seq<Source>)
    ensures Faithful(Expected(sources), sources) <==> Agree(sources)
  {
    if Agree(sources) {
      forall i | 0 <= i < |sources|
        ensures sources[i].name in Expected(sources) && Expected(sources)[sources[i].name] == Offered(sources[i])
      {
        var j := LastOf(sources, i);
        LastStays(sources, j);
      }
    }
  }

  /**
  What is published has every source's bytes under its name exactly if no two names stand for one
  file, unless their bytes are the same: always where case counts, since the names differ.
  */
  lemma {:induction false} UploadIsFaithfulExactly(sources: seq<Source>, capacity: nat, folds: bool)
    requires SafeNames(Names(sources)) && AllIntact(sources) && Total(Arguments(sources)) <= capacity
    ensures var keyed := Keyed(sources, folds);
            var r := RunScript(Arrived(Sent(sources), capacity), Arguments(keyed));
            r.Ok? && (Faithful(r.value, keyed) <==> Agree(keyed))
    ensures !folds ==> Agree(Keyed(sources, folds))
  {
    UploadIsPublished(sources, capacity, folds);
    FaithfulExactly(Keyed(sources, folds));
    if !folds {
      assert forall i :: 0 <= i < |sources| ==> Names(sources)[i] == sources[i].name;
    }
  }

  /** Names that differ only in case are both accepted, and one file of the two is lost. */
  lemma {:induction false} FoldingLosesAFile()
    ensures var sources := [Source("A", 1, Memory([1])), Source("a", 1, Memory([2]))];
            SafeNames(Names(sources)) && AllIntact(sources) && !Agree(Keyed(sources, true))
  {
    var sources := [Source("A", 1, Memory([1])), Source("a", 1, Memory([2]))];
    assert Names(sources) == ["A", "a"];
    assert Folded("A") == "a" && Folded("a") == "a";
    var keyed := Keyed(sources, true);
    assert keyed[0].name == keyed[1].name && Offered(keyed[0])[0] != Offered(keyed[1])[0];
  }

  /** The published directory has one file for each file that the names stand for, and no other. */
  lemma {:induction false} ExpectedIs(sources: seq<Source>)
    ensures Expected(sources).Keys == set s | s in sources :: s.name
  {
    ExpectedNames(sources);
  }
}
