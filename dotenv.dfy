/** LoadEnv (initializers/loadEnv.go): reads a .env file line by line and sets
    one process environment variable per `KEY=VALUE` line, stopping at the first
    line it cannot use.  The file arrives already split into lines; the process
    environment is a map held by an Environment object. */
module DotEnv {
  import opened Text

  /** Why LoadEnv gave up. */
  datatype LoadError =
    | OpenFailed                                 // the file could not be opened
    | InvalidLine(line: string)                  // a used line without '=' (trimmed)
    | SetenvFailed(key: string, value: string)   // os.Setenv refused the pair
    | ReadFailed                                 // the scanner reported an error

  datatype Status = Ok | Failed(error: LoadError)

  /** What one line of the file means. */
  datatype Line =
    | Skipped                                 // blank, or a '#' comment
    | Assignment(key: string, value: string)
    | Malformed(trimmed: string)               // no '=' in it

  /** The file as LoadEnv sees it: either it cannot be opened, or it yields a
      sequence of lines, after which the scanner may report a read error. */
  datatype EnvFile =
    | Unopenable
    | Lines(lines: seq<string>, readError: bool)

  /** The environment after some lines, and whether LoadEnv carries on. */
  datatype LoadResult = LoadResult(env: map<string, string>, status: Status)

  /** A raw line is trimmed first, then classified: a line that is blank or
      whose first visible character is '#' is skipped, any other line without
      '=' is malformed, and the rest are assignments. */
  function Classify(raw: string): (l: Line)
    ensures l.Skipped? <==> AllSpace(raw) || (TrimSpace(raw) != [] && TrimSpace(raw)[0] == '#')
    ensures l.Malformed? <==> !l.Skipped? && '=' !in raw
    ensures l.Malformed? ==> l.trimmed == TrimSpace(raw)
    ensures l.Assignment? ==> '=' !in l.key && Trimmed(l.key) && Trimmed(l.value)
  {
    TrimSpaceEmptyIff(raw);
    TrimSpaceKeeps(raw, '=');
    ClassifyTrimmed(TrimSpace(raw))
  }

  /** A trimmed line: blank and '#' lines are skipped; any other line is split
      at its first '=' and both sides are trimmed again. */
  function ClassifyTrimmed(line: string): (l: Line)
    ensures l.Skipped? <==> line == "" || line[0] == '#'
    ensures l.Malformed? <==> line != "" && line[0] != '#' && '=' !in line
    ensures l.Malformed? ==> l.trimmed == line
    ensures l.Assignment? ==> var c := SplitAtFirst(line, '=');
              c.Cut? && l.key == TrimSpace(c.before) && l.value == TrimSpace(c.after)
    ensures l.Assignment? ==> '=' !in l.key && Trimmed(l.key) && Trimmed(l.value)
  {
    if line == "" || line[0] == '#' then Skipped
    else
      match SplitAtFirst(line, '=')
      case NoSeparator => Malformed(line)
      case Cut(k, v) =>
        TrimSpaceAbsent(k, '=');
        Assignment(TrimSpace(k), TrimSpace(v))
  }

  /** os.Setenv on Unix: the key must be non-empty and hold neither '=' nor NUL,
      and the value must not hold NUL. */
  predicate SetenvAccepts(key: string, value: string) {
    key != "" && '=' !in key && '\0' !in key && '\0' !in value
  }

  /** One iteration of LoadEnv's loop, on a line already classified. */
  function Step(env: map<string, string>, line: Line): (r: LoadResult)
    ensures r.status.Ok? ==> r.env.Keys >= env.Keys
    ensures r.status.Failed? ==> r.env == env
  {
    match line
    case Skipped => LoadResult(env, Ok)
    case Malformed(trimmed) => LoadResult(env, Failed(InvalidLine(trimmed)))
    case Assignment(k, v) =>
      if SetenvAccepts(k, v) then LoadResult(env[k := v], Ok)
      else LoadResult(env, Failed(SetenvFailed(k, v)))
  }

  /** The lines in file order, up to and including the first one that fails.
      No variable is ever removed, and the only errors are a malformed line and
      a pair os.Setenv refuses. */
  function Run(env: map<string, string>, lines: seq<Line>): (r: LoadResult)
    ensures r.env.Keys >= env.Keys
    ensures r.status.Failed? ==> r.status.error.InvalidLine? || r.status.error.SetenvFailed?
  {
    if lines == [] then LoadResult(env, Ok)
    else
      var before := Run(env, lines[..|lines| - 1]);
      if before.status.Failed? then before else Step(before.env, lines[|lines| - 1])
  }

  /** Every line of the file, classified. */
  function ClassifyAll(raw: seq<string>): (lines: seq<Line>)
    ensures |lines| == |raw|
    ensures forall i :: 0 <= i < |raw| ==> lines[i] == Classify(raw[i])
  {
    seq(|raw|, i requires 0 <= i < |raw| => Classify(raw[i]))
  }

  /** The whole of LoadEnv: an unopenable file changes nothing; otherwise the
      lines run, and a read error is reported only when every line went through. */
  function Load(env: map<string, string>, file: EnvFile): (r: LoadResult)
    ensures r.env.Keys >= env.Keys
    ensures r.status == Failed(OpenFailed) <==> file.Unopenable?
    ensures file.Unopenable? ==> r.env == env
    ensures r.status == Failed(ReadFailed) ==> file.Lines? && file.readError
  {
    match file
    case Unopenable => LoadResult(env, Failed(OpenFailed))
    case Lines(raw, readError) =>
      var r := Run(env, ClassifyAll(raw));
      if r.status.Ok? && readError then LoadResult(r.env, Failed(ReadFailed)) else r
  }

  /** A line LoadEnv accepts: skipped, or an assignment os.Setenv takes. */
  predicate Accepted(line: Line) {
    match line
    case Skipped => true
    case Malformed(_) => false
    case Assignment(k, v) => SetenvAccepts(k, v)
  }

  /** The line assigns key `k`. */
  predicate Assigns(line: Line, k: string) {
    line.Assignment? && line.key == k
  }

  // ---------------------------------------------------------------------------
  // Lines

  /** A trimmed line `before=after`, with no '=' in `before`, is the assignment
      of the trimmed sides, unless it is a comment. */
  lemma ClassifySplit(line: string, before: string, after: string)
    requires line == before + "=" + after && '=' !in before
    requires line[0] != '#'
    ensures ClassifyTrimmed(line) == Assignment(TrimSpace(before), TrimSpace(after))
  {
    SplitAtFirstJoin(before, '=', after);
  }

  /** A key followed by white space trims back to the key. */
  lemma PaddedKey(key: string, p: string)
    requires AllSpace(p) && Trimmed(key) && '=' !in key
    ensures '=' !in key + p
    ensures TrimSpace(key + p) == key
  {
    assert forall i :: 0 <= i < |p| ==> p[i] != '=';
    assert key + p == [] + key + p;
    TrimSpaceSurrounded([], key, p);
  }

  /** The text after '=' in a padded line, as it is left once the whole line
      has been trimmed: white space before the value survives only if a value
      follows it. */
  function AfterEquals(q: string, value: string): string {
    if value == [] then [] else q + value
  }

  lemma PaddedValue(q: string, value: string)
    requires AllSpace(q) && Trimmed(value)
    ensures TrimSpace(AfterEquals(q, value)) == value
  {
    if value == [] {
      TrimSpaceSurrounded([], [], []);
    } else {
      assert q + value == q + value + [];
      TrimSpaceSurrounded(q, value, []);
    }
  }

  /** Trimming a padded line leaves key, padding, '=' and what follows it. */
  lemma PaddedLine(a: string, key: string, p: string, q: string, value: string, b: string)
    requires AllSpace(a) && AllSpace(p) && AllSpace(q) && AllSpace(b)
    requires key != "" && Trimmed(key) && Trimmed(value)
    ensures TrimSpace(a + key + p + "=" + q + value + b) == key + p + "=" + AfterEquals(q, value)
  {
    var s := a + key + p + "=" + q + value + b;
    var head := key + p + "=";
    if value == [] {
      assert s == a + head + (q + b);
      AllSpaceConcat(q, b);
      assert head[0] == key[0];
      TrimSpaceSurrounded(a, head, q + b);
    } else {
      var line := head + (q + value);
      assert s == a + line + b;
      assert line[0] == key[0] && line[|line| - 1] == value[|value| - 1];
      TrimSpaceSurrounded(a, line, b);
    }
  }

  /** A `KEY=VALUE` line with white space around it and around '=' is read as
      the pair (KEY, VALUE): nothing else is removed, so quotes, further '='
      and `#` after the value are all part of the value. */
  lemma ClassifyPadded(a: string, key: string, p: string, q: string, value: string, b: string)
    requires AllSpace(a) && AllSpace(p) && AllSpace(q) && AllSpace(b)
    requires key != "" && Trimmed(key) && '=' !in key && key[0] != '#'
    requires Trimmed(value)
    ensures Classify(a + key + p + "=" + q + value + b) == Assignment(key, value)
  {
    PaddedLine(a, key, p, q, value, b);
    PaddedKey(key, p);
    PaddedValue(q, value);
    ClassifySplit(key + p + "=" + AfterEquals(q, value), key + p, AfterEquals(q, value));
  }

  /** A line with no '=' that is neither blank nor a comment stops LoadEnv. */
  lemma NoEqualsIsInvalid(raw: string)
    requires '=' !in raw
    requires TrimSpace(raw) != "" && TrimSpace(raw)[0] != '#'
    ensures Classify(raw) == Malformed(TrimSpace(raw))
    ensures !Accepted(Classify(raw))
  {
    TrimSpaceAbsent(raw, '=');
  }

  // ---------------------------------------------------------------------------
  // Runs

  /** Running a + b is running a and then, if nothing failed, b from there. */
  lemma {:induction false} RunAppend(env: map<string, string>, a: seq<Line>, b: seq<Line>)
    ensures Run(env, a + b) ==
              if Run(env, a).status.Failed? then Run(env, a) else Run(Run(env, a).env, b)
  {
    if b == [] {
      assert a + b == a;
    } else {
      var n := |b| - 1;
      assert (a + b)[..|a + b| - 1] == a + b[..n];
      assert (a + b)[|a + b| - 1] == b[n];
      RunAppend(env, a, b[..n]);
    }
  }

  /** One more line of the file: the run so far, then that line unless
      something already failed. */
  lemma RunOneMore(env: map<string, string>, lines: seq<Line>, i: nat)
    requires i < |lines|
    ensures Run(env, lines[..i + 1]) ==
              if Run(env, lines[..i]).status.Failed? then Run(env, lines[..i])
              else Step(Run(env, lines[..i]).env, lines[i])
  {
    assert lines[..i + 1][..i] == lines[..i];
  }

  /** LoadEnv stops at the first failing line: what it set before stays set,
      the failure is that line's, and no later line is looked at. */
  lemma StopsAtFirstFailure(env: map<string, string>, lines: seq<Line>, i: nat)
    requires i < |lines| && Run(env, lines[..i]).status.Ok?
    requires Step(Run(env, lines[..i]).env, lines[i]).status.Failed?
    ensures Run(env, lines) ==
              LoadResult(Run(env, lines[..i]).env, Step(Run(env, lines[..i]).env, lines[i]).status)
  {
    assert lines[..i + 1][..i] == lines[..i];
    RunAppend(env, lines[..i + 1], lines[i + 1..]);
    assert lines[..i + 1] + lines[i + 1..] == lines;
  }

  /** Blank and comment lines change nothing, wherever they are. */
  lemma SkippedLineIsInert(env: map<string, string>, before: seq<Line>, after: seq<Line>)
    ensures Run(env, before + [Skipped] + after) == Run(env, before + after)
  {
    RunAppend(env, before + [Skipped], after);
    RunAppend(env, before, after);
    assert (before + [Skipped])[..|before + [Skipped]| - 1] == before;
  }

  /** LoadEnv's loop succeeds exactly when every line is accepted, whatever the
      environment it starts from. */
  lemma {:induction false} RunOkIff(env: map<string, string>, lines: seq<Line>)
    ensures Run(env, lines).status.Ok? <==> forall i :: 0 <= i < |lines| ==> Accepted(lines[i])
  {
    if lines != [] {
      var n := |lines| - 1;
      RunOkIff(env, lines[..n]);
      assert forall i :: 0 <= i < n ==> lines[..n][i] == lines[i];
    }
  }

  /** On success, a key takes the value of the last line that assigns it. */
  lemma {:induction false} LastAssignmentWins(env: map<string, string>, lines: seq<Line>, i: nat)
    requires Run(env, lines).status.Ok?
    requires i < |lines| && lines[i].Assignment?
    requires forall j :: i < j < |lines| ==> !Assigns(lines[j], lines[i].key)
    ensures lines[i].key in Run(env, lines).env
    ensures Run(env, lines).env[lines[i].key] == lines[i].value
  {
    var n := |lines| - 1;
    var before := Run(env, lines[..n]);
    assert before.status.Ok?;
    if i < n {
      assert forall j :: i < j < n ==> lines[..n][j] == lines[j];
      LastAssignmentWins(env, lines[..n], i);
    }
  }

  /** On success, a key no line assigns keeps whatever it had, or stays unset. */
  lemma {:induction false} UnassignedKeyKept(env: map<string, string>, lines: seq<Line>, k: string)
    requires Run(env, lines).status.Ok?
    requires forall j :: 0 <= j < |lines| ==> !Assigns(lines[j], k)
    ensures k in Run(env, lines).env <==> k in env
    ensures k in env ==> Run(env, lines).env[k] == env[k]
  {
    if lines != [] {
      var n := |lines| - 1;
      assert Run(env, lines[..n]).status.Ok?;
      assert forall j :: 0 <= j < n ==> lines[..n][j] == lines[j];
      UnassignedKeyKept(env, lines[..n], k);
    }
  }

  /** What a successful run adds does not depend on the starting environment:
      it overlays the assignments it makes from an empty environment. */
  lemma {:induction false} RunOverlays(env: map<string, string>, lines: seq<Line>)
    ensures Run(env, lines).status == Run(map[], lines).status
    ensures Run(env, lines).status.Ok? ==> Run(env, lines).env == env + Run(map[], lines).env
  {
    if lines != [] {
      var n := |lines| - 1;
      RunOverlays(env, lines[..n]);
      var d := Run(map[], lines[..n]);
      if d.status.Ok? {
        match lines[n]
        case Skipped =>
        case Malformed(_) =>
        case Assignment(k, v) =>
          if SetenvAccepts(k, v) {
            assert (env + d.env)[k := v] == env + d.env[k := v];
          }
      }
    }
  }

  /** Loading the same file twice gives the same environment as loading it once. */
  lemma RunIdempotent(env: map<string, string>, lines: seq<Line>)
    requires Run(env, lines).status.Ok?
    ensures Run(Run(env, lines).env, lines) == Run(env, lines)
  {
    var e := Run(env, lines).env;
    var d := Run(map[], lines).env;
    RunOverlays(env, lines);
    RunOverlays(e, lines);
    assert e + d == env + d + d;
    assert env + d + d == env + d;
  }

  /** LoadEnv returns no error exactly when the file opened, every line of it
      was blank, a comment or an assignment os.Setenv took, and the scanner
      reported nothing. */
  lemma LoadOkIff(env: map<string, string>, file: EnvFile)
    ensures Load(env, file).status.Ok? <==>
              && file.Lines?
              && !file.readError
              && forall i :: 0 <= i < |file.lines| ==> Accepted(Classify(file.lines[i]))
  {
    if file.Lines? {
      var lines := ClassifyAll(file.lines);
      RunOkIff(env, lines);
    }
  }

  /** The process environment, as LoadEnv reads and writes it. */
  class Environment {
    var vars: map<string, string>

    constructor (vars: map<string, string>)
      ensures this.vars == vars
    {
      this.vars := vars;
    }

    /** os.Setenv: fails and changes nothing unless the pair is acceptable. */
    method Setenv(key: string, value: string) returns (ok: bool)
      modifies this
      ensures ok <==> SetenvAccepts(key, value)
      ensures vars == if ok then old(vars)[key := value] else old(vars)
    {
      ok := SetenvAccepts(key, value);
      if ok {
        vars := vars[key := value];
      }
    }

    /** LoadEnv: an unopenable file is reported before anything is set; the
        scanner's error is looked at only once every line went through. */
    method LoadEnv(file: EnvFile) returns (status: Status)
      modifies this
      ensures LoadResult(vars, status) == Load(old(vars), file)
    {
      if file.Unopenable? {
        return Failed(OpenFailed);
      }
      status := ApplyLines(file.lines);
      if status.Ok? && file.readError {
        status := Failed(ReadFailed);
      }
    }

    /** The loop of LoadEnv: trims and classifies each line, sets one variable
        per assignment, and returns at the first line that fails. */
    method ApplyLines(raw: seq<string>) returns (status: Status)
      modifies this
      ensures LoadResult(vars, status) == Run(old(vars), ClassifyAll(raw))
    {
      ghost var lines := ClassifyAll(raw);
      var i := 0;
      while i < |raw|
        invariant 0 <= i <= |raw|
        invariant Run(old(vars), lines[..i]) == LoadResult(vars, Ok)
        decreases |raw| - i
      {
        RunOneMore(old(vars), lines, i);
        var line := Classify(raw[i]);
        assert line == lines[i];
        match line {
          case Skipped =>
          case Malformed(trimmed) =>
            StopsAtFirstFailure(old(vars), lines, i);
            return Failed(InvalidLine(trimmed));
          case Assignment(key, value) =>
            var ok := Setenv(key, value);
            if !ok {
              StopsAtFirstFailure(old(vars), lines, i);
              return Failed(SetenvFailed(key, value));
            }
        }
        i := i + 1;
      }
      assert lines[..i] == lines;
      return Ok;
    }
  }
}
