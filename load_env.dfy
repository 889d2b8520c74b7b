/** load_env.py: every line of the .env file that holds "=" is stripped, split at its first "="
    and stored in the process environment, and then the three API keys found in the environment are
    shown masked. The file's text, or its absence, is a parameter; the environment is an object
    whose map the loader updates in place. */
module LoadEnv {
  import opened Common
  import opened EnvFile

  /** `os.environ`. */
  class Environment {
    var vars: map<string, string>

    constructor (initial: map<string, string>)
      ensures vars == initial
    {
      vars := initial;
    }
  }

  /** How `load_env()` ends: 1 when there is no file, 0 after loading, and an exception when the
      environment refuses a variable. */
  datatype LoadResult = MissingFile | Loaded | Raised

  /** The process exit status `sys.exit(load_env())` gives; an uncaught exception exits with 1. */
  function ExitCode(r: LoadResult): (code: int)
    ensures code == 0 <==> r == Loaded
    ensures code == 1 <==> r != Loaded
  {
    match r
    case MissingFile => 1
    case Loaded => 0
    case Raised => 1
  }

  /** Whether `os.environ[key] = value` succeeds: `putenv` refuses an empty name, a name holding
      "=" and a NUL character in either part with ValueError. */
  predicate Settable(key: string, value: string) {
    key != [] && '=' !in key && '\0' !in key && '\0' !in value
  }

  // ---------------------------------------------------------------------------------------------
  // The environment as a dictionary
  // ---------------------------------------------------------------------------------------------

  /** The map a dictionary stands for; `Lookup` finds the first entry of a key, so the first
      entry wins here too. */
  function ToMap(e: Entries): map<string, string> {
    if e == [] then map[] else ToMap(e[1..])[e[0].0 := e[0].1]
  }

  /** The map of a dictionary holds exactly its keys, each with the value `Lookup` finds. */
  lemma {:induction false} ToMapLookup(e: Entries, k: string)
    ensures k in ToMap(e) <==> HasKey(e, k)
    ensures k in ToMap(e) ==> Lookup(e, k) == Some(ToMap(e)[k])
  {
    if e != [] {
      ToMapLookup(e[1..], k);
      assert forall i :: 1 <= i < |e| ==> e[i] == e[1..][i - 1];
    }
  }

  /** Setting a key in the dictionary sets it in its map. */
  lemma {:induction false} ToMapSet(e: Entries, key: string, value: string)
    ensures ToMap(Set(e, key, value)) == ToMap(e)[key := value]
  {
    if e != [] && e[0].0 != key {
      ToMapSet(e[1..], key, value);
      assert Set(e, key, value)[1..] == Set(e[1..], key, value);
    }
  }

  lemma UnionUpdate(m: map<string, string>, t: map<string, string>, key: string, value: string)
    ensures (m + t)[key := value] == m + t[key := value]
  {
  }

  // ---------------------------------------------------------------------------------------------
  // Loading
  // ---------------------------------------------------------------------------------------------

  /** A line the environment refuses: it holds "=", and its variable cannot be set. */
  predicate Refused(line: string) {
    ParseLine(line).Some? && !Settable(ParseLine(line).value.0, ParseLine(line).value.1)
  }

  /** One pass of the loop of load_env.py:16-19: the environment after the line, or `None` when
      setting its variable raises. */
  function Step(m: map<string, string>, line: string): (r: Option<map<string, string>>)
    ensures r.None? <==> Refused(line)
  {
    match ParseLine(line)
    case None => Some(m)
    case Some((key, value)) => if Settable(key, value) then Some(m[key := value]) else None
  }

  /** The loop of load_env.py:15-19 from environment `m`: the final environment and whether a
      refused variable raised. The variables stored before the refusal stay stored. */
  function ApplyLines(m: map<string, string>, lines: seq<string>): (map<string, string>, bool)
    decreases |lines|
  {
    if lines == [] then (m, false)
    else
      match Step(m, lines[0])
      case None => (m, true)
      case Some(next) => ApplyLines(next, lines[1..])
  }

  /** The position of the first line the environment refuses, or the number of lines. */
  function FirstRefused(lines: seq<string>): (j: nat)
    ensures j <= |lines|
    decreases |lines|
  {
    if lines == [] || Refused(lines[0]) then 0 else 1 + FirstRefused(lines[1..])
  }

  /** The line at `FirstRefused` is refused, and no line before it is. */
  lemma {:induction false} FirstRefusedIsFirst(lines: seq<string>)
    ensures FirstRefused(lines) < |lines| ==> Refused(lines[FirstRefused(lines)])
    ensures forall i :: 0 <= i < FirstRefused(lines) ==> !Refused(lines[i])
    decreases |lines|
  {
    if lines != [] && !Refused(lines[0]) {
      FirstRefusedIsFirst(lines[1..]);
      assert forall i :: 1 <= i < |lines| ==> lines[i] == lines[1..][i - 1];
    }
  }

  /** A line that is not refused does to the environment what it does to the dictionary. */
  lemma StepMerges(m: map<string, string>, acc: Entries, line: string)
    requires !Refused(line)
    ensures Step(m + ToMap(acc), line) == Some(m + ToMap(ParseStep(acc, line)))
  {
    match ParseLine(line)
    case None =>
    case Some((key, value)) =>
      ToMapSet(acc, key, value);
      UnionUpdate(m, ToMap(acc), key, value);
  }

  /** A line such as " =value" names the empty variable, so loading stops there with
      ValueError. */
  lemma EmptyNameRefused(line: string)
    requires '=' in line
    ensures Strip(line) != []
    ensures Strip(line)[0] == '=' <==> ParseLine(line).value.0 == ""
    ensures Strip(line)[0] == '=' ==> Refused(line)
  {
    var key := ParseLine(line).value.0;
    if key != [] {
      assert (key + "=" + ParseLine(line).value.1)[0] == key[0];
    }
  }

  /** Loading from a state the dictionary `acc` has already been merged into. */
  lemma {:induction false} ApplyLinesFrom(m: map<string, string>, acc: Entries, lines: seq<string>)
    ensures var j := FirstRefused(lines);
            ApplyLines(m + ToMap(acc), lines) == (m + ToMap(ParseInto(acc, lines[..j])), j < |lines|)
    decreases |lines|
  {
    if lines == [] {
    } else if Refused(lines[0]) {
      assert lines[..0] == [];
    } else {
      var j := FirstRefused(lines);
      var rest := lines[1..];
      var next := ParseStep(acc, lines[0]);
      assert j == 1 + FirstRefused(rest);
      StepMerges(m, acc, lines[0]);
      assert ApplyLines(m + ToMap(acc), lines) == ApplyLines(m + ToMap(next), rest);
      assert lines[..j][0] == lines[0] && lines[..j][1..] == rest[..j - 1];
      assert ParseInto(acc, lines[..j]) == ParseInto(next, rest[..j - 1]);
      ApplyLinesFrom(m, next, rest);
    }
  }

  /** The loop stores the dictionary the lines before the first refused one read to, over the
      environment it started from, and raises exactly when some line is refused. */
  lemma ApplyLinesMeaning(m: map<string, string>, lines: seq<string>)
    ensures var j := FirstRefused(lines);
            ApplyLines(m, lines) == (m + ToMap(ParseInto([], lines[..j])), j < |lines|)
  {
    assert m + ToMap([]) == m;
    ApplyLinesFrom(m, [], lines);
  }

  /** The lines of the file, as `for line in f` reads them. */
  function FileLines(text: string): seq<string> {
    Lines(UniversalNewlines(text))
  }

  /** When nothing is refused, the environment ends up as it was, overridden by the very
      dictionary setup_api_keys.py reads from the same file: later lines win, and every other
      variable is kept. */
  lemma LoadMatchesSetupRead(m: map<string, string>, text: string)
    requires FirstRefused(FileLines(text)) == |FileLines(text)|
    ensures ApplyLines(m, FileLines(text)) == (m + ToMap(ReadEntries(text)), false)
  {
    var lines := FileLines(text);
    ApplyLinesMeaning(m, lines);
    assert lines[..|lines|] == lines;
  }

  /** A variable no line of the file names keeps its value, even when loading raises. */
  lemma OtherVariablesKept(m: map<string, string>, text: string, k: string)
    requires !HasKey(ReadEntries(text), k)
    ensures var vars := ApplyLines(m, FileLines(text)).0;
            (k in vars <==> k in m) && (k in m ==> vars[k] == m[k])
  {
    var lines := FileLines(text);
    var j := FirstRefused(lines);
    ApplyLinesMeaning(m, lines);
    ToMapLookup(ParseInto([], lines[..j]), k);
    if HasKey(ParseInto([], lines[..j]), k) {
      ParseIntoKeepsKey([], lines, j, k);
      assert false;
    }
  }

  /** A key present after reading a prefix of the lines is present after reading them all. */
  lemma {:induction false} ParseIntoKeepsKey(e: Entries, lines: seq<string>, n: nat, k: string)
    requires n <= |lines| && HasKey(ParseInto(e, lines[..n]), k)
    ensures HasKey(ParseInto(e, lines), k)
    decreases |lines|
  {
    if n == 0 {
      assert lines[..0] == [];
      KeptAfterward(e, lines, k);
    } else {
      assert lines[..n][1..] == lines[1..][..n - 1];
      ParseIntoKeepsKey(ParseStep(e, lines[0]), lines[1..], n - 1, k);
    }
  }

  /** Parsing more lines never loses a key. */
  lemma {:induction false} KeptAfterward(e: Entries, lines: seq<string>, k: string)
    requires HasKey(e, k)
    ensures HasKey(ParseInto(e, lines), k)
    decreases |lines|
  {
    if lines != [] {
      var s := ParseStep(e, lines[0]);
      if ParseLine(lines[0]).Some? {
        var key := ParseLine(lines[0]).value.0;
        var value := ParseLine(lines[0]).value.1;
        SetLookup(e, key, value, k);
      }
      KeptAfterward(s, lines[1..], k);
    }
  }

  /** Every variable of a dictionary that holds no NUL character and no empty name. */
  predicate AllSettable(e: Entries) {
    forall i :: 0 <= i < |e| ==> Settable(e[i].0, e[i].1)
  }

  /** A file written by setup_api_keys.py loads without a refusal into the environment
      overridden by every entry written. */
  lemma {:induction false} LoadAfterSetup(m: map<string, string>, e: Entries)
    requires DistinctKeys(e) && AllWellFormed(e) && AllSettable(e)
    ensures ApplyLines(m, FileLines(EnvText(e))) == (m + ToMap(e), false)
  {
    EnvTextHasNoCarriageReturn(e);
    NoCarriageReturnUnchanged(EnvText(e));
    ApplyWritten(m, e);
  }

  lemma {:induction false} ApplyWritten(m: map<string, string>, e: Entries)
    requires DistinctKeys(e) && AllWellFormed(e) && AllSettable(e)
    ensures ApplyLines(m, Lines(EnvText(e))) == (m + ToMap(e), false)
    decreases |e|
  {
    if e == [] {
      assert Lines(EnvText(e)) == [];
      assert m + ToMap(e) == m;
    } else {
      var rest := RestOfWritten(e);
      ApplyWrittenFirst(m, e);
      ApplyWritten(m[e[0].0 := e[0].1], rest);
      ToMapLookup(rest, e[0].0);
      assert ToMap(e) == ToMap(rest)[e[0].0 := e[0].1];
      UpdateThenUnion(m, ToMap(rest), e[0].0, e[0].1);
    }
  }

  lemma UpdateThenUnion(m: map<string, string>, t: map<string, string>, key: string, value: string)
    requires key !in t
    ensures m[key := value] + t == m + t[key := value]
  {
  }

  /** Writing the first entry, and what the rest keeps. */
  lemma RestOfWritten(e: Entries) returns (rest: Entries)
    requires e != [] && DistinctKeys(e) && AllWellFormed(e) && AllSettable(e)
    ensures rest == e[1..]
    ensures DistinctKeys(rest) && AllWellFormed(rest) && AllSettable(rest) && !HasKey(rest, e[0].0)
  {
    rest := e[1..];
    assert forall i :: 0 <= i < |rest| ==> rest[i] == e[i + 1];
  }

  lemma ApplyWrittenFirst(m: map<string, string>, e: Entries)
    requires e != [] && WellFormed(e[0].0, e[0].1) && Settable(e[0].0, e[0].1)
    ensures ApplyLines(m, Lines(EnvText(e))) == ApplyLines(m[e[0].0 := e[0].1], Lines(EnvText(e[1..])))
  {
    FirstEntryLine(e);
    EntryLineParses(e[0].0, e[0].1);
    var ls := Lines(EnvText(e));
    assert ls[0] == EntryLine(e[0].0, e[0].1) && ls[1..] == Lines(EnvText(e[1..]));
  }

  // ---------------------------------------------------------------------------------------------
  // The mask
  // ---------------------------------------------------------------------------------------------

  const ApiKeys: set<string> := {WeatherKey, NewsKey, HuggingFaceKey}

  /** load_env.py:25: `f"{value[:5]}...{value[-5:]}"` for a value longer than ten characters,
      "***" otherwise. */
  function LoadMask(v: string): string {
    if |v| > 10 then v[..5] + "..." + v[|v| - 5..] else "***"
  }

  /** A long value is masked as setup_api_keys.py masks it: 13 characters, its first and its last
      five around "..."; a value of ten characters or fewer is masked the same whatever it is. */
  lemma LoadMaskShape(v: string, w: string)
    ensures |v| > 10 ==> LoadMask(v) == SetupMask(v) && |LoadMask(v)| == 13
                         && LoadMask(v)[..5] == v[..5] && LoadMask(v)[8..] == v[|v| - 5..]
    ensures |v| <= 10 && |w| <= 10 ==> LoadMask(v) == LoadMask(w)
  {
    if |v| > 10 {
      var mask := LoadMask(v);
      assert mask[..5] == v[..5];
      assert mask[8..] == v[|v| - 5..];
    }
  }

  /** Two values that differ only strictly inside their first and last five characters have
      the same mask: the middle is hidden. */
  lemma MiddleIsHidden(v: string, w: string)
    requires |v| == |w| && |v| > 10 && v[..5] == w[..5] && v[|v| - 5..] == w[|w| - 5..]
    ensures LoadMask(v) == LoadMask(w)
  {
  }

  /** The lines load_env.py:23-26 prints, one per API key present, as key to masked value. */
  function Masked(vars: map<string, string>): (shown: map<string, string>)
    ensures shown.Keys == vars.Keys * ApiKeys
    ensures forall k :: k in shown ==> shown[k] == LoadMask(vars[k])
  {
    map k | k in vars.Keys * ApiKeys :: LoadMask(vars[k])
  }

  /** Only the three API keys reach the printed lines: two environments that agree on them,
      present or absent and with the same values, print the same masks, whatever else they hold. */
  lemma MaskedIgnoresOtherVariables(v: map<string, string>, w: map<string, string>)
    requires forall k :: k in ApiKeys ==> (k in v <==> k in w)
    requires forall k :: k in ApiKeys && k in v ==> v[k] == w[k]
    ensures Masked(v) == Masked(w)
  {
    assert Masked(v).Keys == Masked(w).Keys;
  }

  /** Changing an API key's value strictly inside its first and last five characters does not
      change what is printed. */
  lemma MaskedHidesMiddle(vars: map<string, string>, k: string, w: string)
    requires k in ApiKeys && k in vars && |vars[k]| == |w| && |w| > 10
    requires vars[k][..5] == w[..5] && vars[k][|w| - 5..] == w[|w| - 5..]
    ensures Masked(vars[k := w]) == Masked(vars)
  {
    MiddleIsHidden(vars[k], w);
    assert Masked(vars[k := w]).Keys == Masked(vars).Keys;
  }

  /** Loading raises exactly when some line of the file is refused by the environment. */
  lemma RaisesIffSomeLineRefused(m: map<string, string>, text: string)
    ensures ApplyLines(m, FileLines(text)).1 <==>
              exists i :: 0 <= i < |FileLines(text)| && Refused(FileLines(text)[i])
  {
    var lines := FileLines(text);
    ApplyLinesMeaning(m, lines);
    FirstRefusedIsFirst(lines);
  }

  /** `load_env()`: the file is `None` when .env does not exist. On a refused variable the
      variables stored so far stay, nothing is shown and the exception ends the run. */
  method Load(env: Environment, file: Option<string>) returns (result: LoadResult, shown: map<string, string>)
    modifies env
    ensures file.None? ==> result == MissingFile && env.vars == old(env.vars) && shown == map[]
    ensures file.Some? ==>
              var (vars, raised) := ApplyLines(old(env.vars), FileLines(file.value));
              env.vars == vars && result == (if raised then Raised else Loaded)
    ensures result == Loaded ==> shown == Masked(env.vars)
    ensures result != Loaded ==> shown == map[]
    ensures ExitCode(result) == 0 <==>
              file.Some? && forall i :: 0 <= i < |FileLines(file.value)| ==> !Refused(FileLines(file.value)[i])
  {
    if file.Some? {
      RaisesIffSomeLineRefused(env.vars, file.value);
    }
    shown := map[];
    if file.None? {
      return MissingFile, shown;
    }
    var lines := FileLines(file.value);
    var i := 0;
    while i < |lines|
      invariant 0 <= i <= |lines|
      invariant ApplyLines(env.vars, lines[i..]) == ApplyLines(old(env.vars), lines)
    {
      assert lines[i..][1..] == lines[i + 1..];
      var parsed := ParseLine(lines[i]);
      if parsed.Some? {
        var key, value := parsed.value.0, parsed.value.1;
        if !Settable(key, value) {
          return Raised, shown;
        }
        env.vars := env.vars[key := value];
      }
      i := i + 1;
    }
    assert lines[i..] == [];
    // for key, value in os.environ.items(), in no order the model fixes
    var rest := env.vars.Keys;
    while rest != {}
      invariant rest <= env.vars.Keys
      invariant shown.Keys == (env.vars.Keys - rest) * ApiKeys
      invariant forall k :: k in shown ==> shown[k] == LoadMask(env.vars[k])
      decreases rest
    {
      var key :| key in rest;
      if key in ApiKeys {
        shown := shown[key := LoadMask(env.vars[key])];
      }
      rest := rest - {key};
    }
    result := Loaded;
  }
}
