/** The .env file of setup_api_keys.py: reading it line by line into an insertion-ordered
    dictionary, the rule that decides whether each of the three API keys is replaced, writing
    every entry back as one `key=value` line, and the masked form in which a current key is shown.

    The file system and the console are parameters: the file's text (or its absence), the value
    `config.HUGGINGFACE_API_KEY` imports (or its failure), and what is typed at each prompt. */
module EnvFile {
  import opened Common

  const WeatherKey: string := "WEATHER_API_KEY"
  const NewsKey: string := "NEWS_API_KEY"
  const HuggingFaceKey: string := "HUGGINGFACE_API_KEY"

  // ---------------------------------------------------------------------------------------------
  // The dictionary
  // ---------------------------------------------------------------------------------------------

  /** A Python dict from key to value, in insertion order. */
  type Entries = seq<(string, string)>

  /** `key in d` */
  predicate HasKey(e: Entries, key: string) {
    exists i :: 0 <= i < |e| && e[i].0 == key
  }

  predicate DistinctKeys(e: Entries) {
    forall i, j :: 0 <= i < j < |e| ==> e[i].0 != e[j].0
  }

  /** `d.get(key)`: the value stored for `key`. */
  function Lookup(e: Entries, key: string): (r: Option<string>)
    ensures r.Some? <==> HasKey(e, key)
    ensures r.Some? ==> (key, r.value) in e
  {
    if e == [] then None
    else if e[0].0 == key then Some(e[0].1)
    else
      assert forall i :: 1 <= i < |e| ==> e[i] == e[1..][i - 1];
      Lookup(e[1..], key)
  }

  /** `d.get(key, "")` */
  function Get(e: Entries, key: string): string {
    match Lookup(e, key)
    case Some(v) => v
    case None => ""
  }

  /** `d[key] = value`: an existing key keeps its place and takes the new value; a new key goes
      last. */
  function Set(e: Entries, key: string, value: string): Entries {
    if e == [] then [(key, value)]
    else if e[0].0 == key then [(key, value)] + e[1..]
    else [e[0]] + Set(e[1..], key, value)
  }

  /** After `d[key] = value`, `key` maps to `value` and every other key to what it did. */
  lemma SetLookup(e: Entries, key: string, value: string, k: string)
    ensures Lookup(Set(e, key, value), k) == if k == key then Some(value) else Lookup(e, k)
  {
  }

  /** `d[key] = value` keeps the keys in their places, and a key it adds is new and goes last. */
  lemma {:induction false} SetShape(e: Entries, key: string, value: string)
    ensures var r := Set(e, key, value);
            |e| <= |r| <= |e| + 1 && (forall i :: 0 <= i < |e| ==> r[i].0 == e[i].0)
            && (|r| > |e| ==> r[|e|] == (key, value) && !HasKey(e, key))
  {
    if e != [] && e[0].0 != key {
      SetShape(e[1..], key, value);
      var r := Set(e, key, value);
      assert r == [e[0]] + Set(e[1..], key, value);
      assert !HasKey(e[1..], key) ==> !HasKey(e, key) by {
        if HasKey(e, key) {
          var i :| 0 <= i < |e| && e[i].0 == key;
          assert e[1..][i - 1].0 == key;
        }
      }
    }
  }

  lemma SetKeepsDistinct(e: Entries, key: string, value: string)
    requires DistinctKeys(e)
    ensures DistinctKeys(Set(e, key, value))
  {
    SetShape(e, key, value);
    var r := Set(e, key, value);
    if |r| > |e| {
      forall i | 0 <= i < |e|
        ensures r[i].0 != r[|e|].0
      {
        assert e[i].0 != key;
      }
    }
  }

  /** A new key is appended. */
  lemma SetNewKey(e: Entries, key: string, value: string)
    requires !HasKey(e, key)
    ensures Set(e, key, value) == e + [(key, value)]
  {
    if e != [] {
      assert e[0].0 != key;
      assert forall i :: 0 <= i < |e[1..]| ==> e[1..][i] == e[i + 1];
      SetNewKey(e[1..], key, value);
    }
  }

  // ---------------------------------------------------------------------------------------------
  // Reading
  // ---------------------------------------------------------------------------------------------

  /** The text read from a file opened in text mode: "\r\n" and a lone "\r" both become "\n". */
  function UniversalNewlines(s: string): (r: string)
    ensures '\r' !in r
    decreases |s|
  {
    if s == [] then []
    else if s[0] == '\r' then
      if |s| > 1 && s[1] == '\n' then "\n" + UniversalNewlines(s[2..]) else "\n" + UniversalNewlines(s[1..])
    else [s[0]] + UniversalNewlines(s[1..])
  }

  /** A text without a carriage return reads as written. */
  lemma {:induction false} NoCarriageReturnUnchanged(s: string)
    requires '\r' !in s
    ensures UniversalNewlines(s) == s
    decreases |s|
  {
    if s != [] {
      assert s[0] != '\r' && '\r' !in s[1..];
      NoCarriageReturnUnchanged(s[1..]);
    }
  }

  /** A line as `for line in f` yields it: not empty, and a newline only at its end. */
  predicate IsLine(l: string) {
    l != [] && '\n' !in l[..|l| - 1]
  }

  /** The length of the first line of `t`, its newline included. */
  function FirstLineLength(t: string): (n: nat)
    requires t != []
    ensures 1 <= n <= |t| && IsLine(t[..n])
    ensures n < |t| ==> t[n - 1] == '\n'
  {
    if t[0] == '\n' || |t| == 1 then 1
    else
      var n := 1 + FirstLineLength(t[1..]);
      assert t[..n][..n - 1] == [t[0]] + t[1..][..n - 1][..n - 2];
      n
  }

  /** The lines of `t`, as iterating over the file yields them. */
  function Lines(t: string): seq<string>
    decreases |t|
  {
    if t == [] then []
    else
      var n := FirstLineLength(t);
      [t[..n]] + Lines(t[n..])
  }

  /** Every line is a line, and none holds a carriage return the text does not. */
  lemma {:induction false} LinesAreLines(t: string)
    ensures forall k :: 0 <= k < |Lines(t)| ==> IsLine(Lines(t)[k])
    ensures '\r' !in t ==> forall k :: 0 <= k < |Lines(t)| ==> '\r' !in Lines(t)[k]
    decreases |t|
  {
    if t != [] {
      var n := FirstLineLength(t);
      LinesUnfold(t, n);
      LinesAreLines(t[n..]);
      assert '\r' !in t ==> '\r' !in t[..n] && '\r' !in t[n..];
      assert forall k :: 1 <= k < |Lines(t)| ==> Lines(t)[k] == Lines(t[n..])[k - 1];
    }
  }

  function Concat(ls: seq<string>): string {
    if ls == [] then "" else ls[0] + Concat(ls[1..])
  }

  lemma LinesUnfold(t: string, n: nat)
    requires t != [] && n == FirstLineLength(t)
    ensures Lines(t) == [t[..n]] + Lines(t[n..])
  {
  }

  lemma ConcatCons(l: string, ls: seq<string>)
    ensures Concat([l] + ls) == l + Concat(ls)
  {
    assert ([l] + ls)[1..] == ls;
  }

  /** Splitting into lines loses nothing. */
  lemma {:induction false} LinesConcat(t: string)
    ensures Concat(Lines(t)) == t
    decreases |t|
  {
    if t != [] {
      var n := FirstLineLength(t);
      LinesUnfold(t, n);
      ConcatCons(t[..n], Lines(t[n..]));
      LinesConcat(t[n..]);
      assert t[..n] + t[n..] == t;
    }
  }

  /** A line ending in a newline is the first line of anything it starts. */
  lemma {:induction false} FirstLineOf(a: string, b: string)
    requires IsLine(a) && a[|a| - 1] == '\n'
    ensures FirstLineLength(a + b) == |a|
    decreases |a|
  {
    if |a| > 1 {
      assert a[0] == a[..|a| - 1][0];
      assert (a + b)[1..] == a[1..] + b;
      assert a[1..][..|a| - 2] == a[..|a| - 1][1..];
      FirstLineOf(a[1..], b);
    }
  }

  function IndexOf(s: string, c: char): (i: nat)
    requires c in s
    ensures i < |s| && s[i] == c && c !in s[..i]
  {
    if s[0] == c then 0
    else
      var i := 1 + IndexOf(s[1..], c);
      assert s[..i] == [s[0]] + s[1..][..i - 1];
      i
  }

  lemma SplitAround(s: string, i: nat)
    requires i < |s| && s[i] == '='
    ensures s == s[..i] + "=" + s[i + 1..]
  {
    assert s == s[..i] + [s[i]] + s[i + 1..];
  }

  /** One line of the loop at setup_api_keys.py:20-23: a line with "=" is stripped and split at
      its first "=" into key and value; any other line is skipped. */
  function ParseLine(line: string): (r: Option<(string, string)>)
    ensures r.Some? <==> '=' in line
    ensures r.Some? ==> r.value.0 + "=" + r.value.1 == Strip(line) && '=' !in r.value.0
  {
    if '=' in line then
      StripKeepsNonSpace(line, '=');
      var s := Strip(line);
      var i := IndexOf(s, '=');
      SplitAround(s, i);
      Some((s[..i], s[i + 1..]))
    else None
  }

  function ParseStep(e: Entries, line: string): Entries {
    match ParseLine(line)
    case None => e
    case Some((k, v)) => Set(e, k, v)
  }

  function ParseInto(e: Entries, lines: seq<string>): Entries
    decreases |lines|
  {
    if lines == [] then e else ParseInto(ParseStep(e, lines[0]), lines[1..])
  }

  /** The dictionary the loop builds from the text of the file. */
  function ReadEntries(text: string): Entries {
    ParseInto([], Lines(UniversalNewlines(text)))
  }

  /** `env_vars` after the loading step: empty when there is no file. */
  function Loaded(file: Option<string>): Entries {
    match file
    case None => []
    case Some(text) => ReadEntries(text)
  }

  /** Reading one more line is one more step. */
  lemma {:induction false} ParseIntoAppend(e: Entries, lines: seq<string>, line: string)
    ensures ParseInto(e, lines + [line]) == ParseStep(ParseInto(e, lines), line)
    decreases |lines|
  {
    if lines == [] {
      assert ([] + [line])[1..] == [];
    } else {
      assert (lines + [line])[1..] == lines[1..] + [line];
      ParseIntoAppend(ParseStep(e, lines[0]), lines[1..], line);
    }
  }

  /** A later line with the same key overrides an earlier one: the last line read decides. */
  lemma LastLineWins(e: Entries, lines: seq<string>, line: string)
    requires '=' in line
    ensures Lookup(ParseInto(e, lines + [line]), ParseLine(line).value.0) == Some(ParseLine(line).value.1)
  {
    ParseIntoAppend(e, lines, line);
    var (k, v) := ParseLine(line).value;
    SetLookup(ParseInto(e, lines), k, v, k);
  }

  /** The loading loop of setup_api_keys.py:17-23 over the lines of the file. */
  method LoadEntries(text: string) returns (e: Entries)
    ensures e == ReadEntries(text)
  {
    var lines := Lines(UniversalNewlines(text));
    e := [];
    var i := 0;
    while i < |lines|
      invariant i <= |lines|
      invariant ParseInto(e, lines[i..]) == ReadEntries(text)
    {
      assert lines[i..][1..] == lines[i + 1..];
      var parsed := ParseLine(lines[i]);
      if parsed.Some? {
        var (key, value) := parsed.value;
        e := Set(e, key, value);
      }
      i := i + 1;
    }
  }

  // ---------------------------------------------------------------------------------------------
  // Writing, and reading back
  // ---------------------------------------------------------------------------------------------

  /** `f"{key}={value}\n"` */
  function EntryLine(key: string, value: string): string {
    key + "=" + value + "\n"
  }

  /** The file the writing loop of setup_api_keys.py:85-87 leaves. */
  function EnvText(e: Entries): string {
    if e == [] then "" else EntryLine(e[0].0, e[0].1) + EnvText(e[1..])
  }

  method WriteEnv(e: Entries) returns (text: string)
    ensures text == EnvText(e)
  {
    text := "";
    for i := 0 to |e|
      invariant text + EnvText(e[i..]) == EnvText(e)
    {
      assert e[i..][1..] == e[i + 1..];
      text := text + EntryLine(e[i].0, e[i].1);
    }
  }

  /** An entry that reads back as itself: the key has no "=" and does not start with whitespace,
      the value does not end with whitespace, and neither holds a line break. */
  predicate WellFormed(key: string, value: string) {
    KeyWellFormed(key) && ValueWellFormed(value)
  }

  predicate KeyWellFormed(key: string) {
    '=' !in key && '\n' !in key && '\r' !in key && (key != [] ==> !IsSpace(key[0]))
  }

  predicate ValueWellFormed(value: string) {
    '\n' !in value && '\r' !in value && (value != [] ==> !IsSpace(value[|value| - 1]))
  }

  predicate AllWellFormed(e: Entries) {
    forall i :: 0 <= i < |e| ==> WellFormed(e[i].0, e[i].1)
  }

  /** A written line parses back to its entry. */
  lemma EntryLineStrips(key: string, value: string)
    requires WellFormed(key, value)
    ensures Strip(EntryLine(key, value)) == key + "=" + value
  {
    var s := key + "=" + value;
    assert EntryLine(key, value) == s + ['\n'];
    assert s[0] == if key == [] then '=' else key[0];
    assert s[|s| - 1] == if value == [] then '=' else value[|value| - 1];
    StripDropsTrailingSpace(s, '\n');
  }

  /** The first "=" of a written line is the one after the key. */
  lemma SeparatorFound(key: string, value: string)
    requires '=' !in key
    ensures IndexOf(key + "=" + value, '=') == |key|
  {
    var s := key + "=" + value;
    assert s[|key|] == '=';
    assert s[..|key|] == key;
  }

  /** A written line parses back to its entry. */
  lemma EntryLineParses(key: string, value: string)
    requires WellFormed(key, value)
    ensures ParseLine(EntryLine(key, value)) == Some((key, value))
  {
    var s := key + "=" + value;
    assert EntryLine(key, value)[|key|] == '=';
    EntryLineStrips(key, value);
    SeparatorFound(key, value);
    assert s[..|key|] == key && s[|key| + 1..] == value;
  }

  lemma EnvTextHasNoCarriageReturn(e: Entries)
    requires AllWellFormed(e)
    ensures '\r' !in EnvText(e)
  {
    if e != [] {
      assert WellFormed(e[0].0, e[0].1);
      EnvTextHasNoCarriageReturn(e[1..]);
    }
  }

  /** The first line of a written file is its first entry's. */
  lemma FirstEntryLine(e: Entries)
    requires e != [] && WellFormed(e[0].0, e[0].1)
    ensures Lines(EnvText(e)) == [EntryLine(e[0].0, e[0].1)] + Lines(EnvText(e[1..]))
  {
    var l := EntryLine(e[0].0, e[0].1);
    var rest := EnvText(e[1..]);
    assert l[..|l| - 1] == e[0].0 + "=" + e[0].1;
    FirstLineOf(l, rest);
    assert (l + rest)[..|l|] == l && (l + rest)[|l|..] == rest;
  }

  /** Reading the first written line puts its entry after `acc`. */
  lemma ReadFirstEntry(acc: Entries, e: Entries)
    requires e != [] && WellFormed(e[0].0, e[0].1) && !HasKey(acc, e[0].0)
    ensures ParseInto(acc, Lines(EnvText(e))) == ParseInto(acc + [e[0]], Lines(EnvText(e[1..])))
  {
    var (k, v) := e[0];
    var lines := Lines(EnvText(e));
    FirstEntryLine(e);
    assert lines[0] == EntryLine(k, v) && lines[1..] == Lines(EnvText(e[1..]));
    EntryLineParses(k, v);
    SetNewKey(acc, k, v);
  }

  lemma PrefixGrows(all: Entries, n: nat)
    requires n < |all|
    ensures all[..n] + [all[n..][0]] == all[..n + 1]
  {
  }

  /** Reading the lines written for the entries from `n` on, after the first `n` entries, gives
      all of them. */
  lemma {:induction false} ReadSuffix(all: Entries, n: nat)
    requires DistinctKeys(all) && AllWellFormed(all) && n <= |all|
    ensures ParseInto(all[..n], Lines(EnvText(all[n..]))) == all
    decreases |all| - n
  {
    if n < |all| {
      var acc := all[..n];
      var e := all[n..];
      assert e[0] == all[n] && e[1..] == all[n + 1..];
      assert WellFormed(all[n].0, all[n].1);
      assert !HasKey(acc, all[n].0) by {
        forall i | 0 <= i < n
          ensures acc[i].0 != all[n].0
        {
          assert acc[i] == all[i];
        }
      }
      PrefixGrows(all, n);
      ReadFirstEntry(acc, e);
      ReadSuffix(all, n + 1);
    } else {
      assert all[..n] == all && all[n..] == [];
    }
  }

  /** Writing the entries and reading the file back gives the same dictionary, in the same order,
      when no key repeats and every entry is well formed. */
  lemma WriteThenRead(e: Entries)
    requires DistinctKeys(e) && AllWellFormed(e)
    ensures ReadEntries(EnvText(e)) == e
  {
    EnvTextHasNoCarriageReturn(e);
    NoCarriageReturnUnchanged(EnvText(e));
    ReadSuffix(e, 0);
    assert e[..0] == [] && e[0..] == e;
  }

  /** A stripped line has no line break left. */
  lemma StrippedLineHasNoNewline(line: string)
    requires IsLine(line)
    ensures '\n' !in Strip(line)
  {
    var i, j := StripIsSlice(line);
    var s := Strip(line);
    forall m | 0 <= m < |s|
      ensures s[m] != '\n'
    {
      assert s[m] == line[i + m];
      if i + m < |line| - 1 {
        assert line[..|line| - 1][i + m] == line[i + m];
      } else {
        assert m == |s| - 1 && !IsSpace(s[m]);
      }
    }
  }

  /** The two sides of the first "=" of a stripped text without line breaks form an entry that
      reads back as itself. */
  lemma SidesWellFormed(s: string, k: string, v: string)
    requires s == k + "=" + v && '=' !in k && '\n' !in s && '\r' !in s
    requires !IsSpace(s[0]) && !IsSpace(s[|s| - 1])
    ensures WellFormed(k, v)
  {
    assert forall m :: 0 <= m < |k| ==> k[m] == s[m];
    assert forall m :: 0 <= m < |v| ==> v[m] == s[|k| + 1 + m];
  }

  /** Whatever file is read, the entries it gives are well formed. */
  lemma ParsedLineIsWellFormed(line: string)
    requires IsLine(line) && '\r' !in line && '=' in line
    ensures WellFormed(ParseLine(line).value.0, ParseLine(line).value.1)
  {
    var (k, v) := ParseLine(line).value;
    StrippedLineHasNoNewline(line);
    StripWithin(line, '\r');
    SidesWellFormed(Strip(line), k, v);
  }

  lemma SetKeepsWellFormed(e: Entries, key: string, value: string)
    requires AllWellFormed(e) && WellFormed(key, value)
    ensures AllWellFormed(Set(e, key, value))
  {
    if e != [] && e[0].0 != key {
      SetKeepsWellFormed(e[1..], key, value);
      assert WellFormed(e[0].0, e[0].1);
    }
  }

  lemma {:induction false} ParseIntoKeepsWellFormed(e: Entries, lines: seq<string>)
    requires DistinctKeys(e) && AllWellFormed(e)
    requires forall k :: 0 <= k < |lines| ==> IsLine(lines[k]) && '\r' !in lines[k]
    ensures DistinctKeys(ParseInto(e, lines)) && AllWellFormed(ParseInto(e, lines))
    decreases |lines|
  {
    if lines != [] {
      var l := lines[0];
      if '=' in l {
        ParsedLineIsWellFormed(l);
        var (k, v) := ParseLine(l).value;
        SetKeepsDistinct(e, k, v);
        SetKeepsWellFormed(e, k, v);
      }
      ParseIntoKeepsWellFormed(ParseStep(e, l), lines[1..]);
    }
  }

  /** The dictionary read from any file has distinct keys and well-formed entries. */
  lemma ReadEntriesWellFormed(text: string)
    ensures DistinctKeys(ReadEntries(text)) && AllWellFormed(ReadEntries(text))
  {
    LinesAreLines(UniversalNewlines(text));
    ParseIntoKeepsWellFormed([], Lines(UniversalNewlines(text)));
  }

  /** Loading a file and saving it unchanged gives a file that loads to the same dictionary. */
  lemma ReloadIsStable(text: string)
    ensures ReadEntries(EnvText(ReadEntries(text))) == ReadEntries(text)
  {
    ReadEntriesWellFormed(text);
    WriteThenRead(ReadEntries(text));
  }

  // ---------------------------------------------------------------------------------------------
  // Masks
  // ---------------------------------------------------------------------------------------------

  function Min(a: nat, b: nat): nat { if a <= b then a else b }

  /** `f"{v[:5]}...{v[-5:]}"`: the first and the last five characters (all of a shorter value). */
  function SetupMask(v: string): string {
    var n := Min(5, |v|);
    v[..n] + "..." + v[|v| - n..]
  }

  /** What a reader of a mask of a value of length `n` learns. */
  function Unmasked(mask: string, n: nat): string
    requires |mask| >= 3 + 2 * Min(5, n)
  {
    if n <= 5 then mask[..n] else mask[..5] + mask[|mask| - Min(5, n - 5)..]
  }

  /** The mask of a key of five characters or more is 13 characters long: its first five, "...",
      and its last five. */
  lemma SetupMaskShape(v: string)
    requires |v| >= 5
    ensures |SetupMask(v)| == 13 && StartsWith(SetupMask(v), v[..5]) && EndsWith(SetupMask(v), v[|v| - 5..])
  {
    var m := SetupMask(v);
    assert m == v[..5] + "..." + v[|v| - 5..];
    assert m[..5] == v[..5];
    assert m[|m| - 5..] == v[|v| - 5..];
  }

  /** The mask hides nothing of a key of ten characters or fewer: the mask and the key's length
      give the key back. */
  lemma ShortKeyShownInFull(v: string)
    requires |v| <= 10
    ensures Unmasked(SetupMask(v), |v|) == v
  {
    if |v| <= 5 {
      VeryShortKeyShown(v);
    } else {
      OverlappingKeyShown(v);
    }
  }

  lemma VeryShortKeyShown(v: string)
    requires |v| <= 5
    ensures Unmasked(SetupMask(v), |v|) == v
  {
    var m := SetupMask(v);
    assert m == v + "..." + v;
    assert m[..|v|] == v;
  }

  lemma OverlappingKeyShown(v: string)
    requires 5 < |v| <= 10
    ensures Unmasked(SetupMask(v), |v|) == v
  {
    var m := SetupMask(v);
    var t := v[|v| - 5..];
    assert m == v[..5] + "..." + t;
    assert m[..5] == v[..5];
    assert m[13 - (|v| - 5)..] == t[10 - |v|..];
    assert t[10 - |v|..] == v[5..];
    assert Unmasked(m, |v|) == v[..5] + v[5..];
    assert v == v[..5] + v[5..];
  }

  /** A key of five characters or fewer is shown twice, so its mask alone gives it back. */
  lemma VeryShortKeyFromMask(v: string, w: string)
    requires |v| <= 5 && |w| <= 5 && SetupMask(v) == SetupMask(w)
    ensures v == w
  {
    VeryShortKeyShown(v);
    VeryShortKeyShown(w);
    assert SetupMask(v) == v + "..." + v;
    assert SetupMask(w) == w + "..." + w;
  }

  /** Keys of six to ten characters need their length: two of them can share a mask. */
  lemma MediumKeysShareMask()
    ensures SetupMask("abcdef") == SetupMask("abcdebcdef") == "abcde...bcdef"
  {
    assert "abcdef"[..5] == "abcde" && "abcdef"[1..] == "bcdef";
    assert "abcdebcdef"[..5] == "abcde" && "abcdebcdef"[5..] == "bcdef";
  }

  // ---------------------------------------------------------------------------------------------
  // setup_api_keys
  // ---------------------------------------------------------------------------------------------

  /** What is typed for one key: the answer to "Do you want to change it?", asked only when the
      key has a value, and the key entered (before `.strip()`), asked only when it changes. */
  datatype Prompt = Prompt(answer: string, entered: string)

  /** Whether the key is asked for: it has no value, or the answer lowercases to "y". */
  predicate Replaces(current: string, p: Prompt) {
    current == "" || Lower(p.answer) == "y"
  }

  function UpdateKey(e: Entries, key: string, current: string, p: Prompt): Entries {
    if Replaces(current, p) then Set(e, key, Strip(p.entered)) else e
  }

  /** The current HuggingFace key: the imported `config` value, or the file's when that is
      missing or empty. */
  function HuggingFaceCurrent(config: Option<string>, e: Entries): string {
    if config.Some? && config.value != "" then config.value else Get(e, HuggingFaceKey)
  }

  /** `env_vars` when it is written: the three keys updated in turn. */
  function Configured(loaded: Entries, config: Option<string>, weather: Prompt, news: Prompt,
                      huggingFace: Prompt): Entries {
    var e1 := UpdateKey(loaded, WeatherKey, Get(loaded, WeatherKey), weather);
    var e2 := UpdateKey(e1, NewsKey, Get(e1, NewsKey), news);
    UpdateKey(e2, HuggingFaceKey, HuggingFaceCurrent(config, e2), huggingFace)
  }

  /** The current values of the three keys, in the order they are asked about. */
  function Currents(loaded: Entries, config: Option<string>): seq<string> {
    [Get(loaded, WeatherKey), Get(loaded, NewsKey), HuggingFaceCurrent(config, loaded)]
  }

  /** The masks printed as "Current value: ...": one for each key that has a value. */
  function ShownMasks(currents: seq<string>): seq<string> {
    if currents == [] then []
    else (if currents[0] != "" then [SetupMask(currents[0])] else []) + ShownMasks(currents[1..])
  }

  lemma ShownMasksOfThree(a: string, b: string, c: string)
    ensures ShownMasks([a, b, c]) == (if a != "" then [SetupMask(a)] else [])
                                     + (if b != "" then [SetupMask(b)] else [])
                                     + (if c != "" then [SetupMask(c)] else [])
  {
    assert [a, b, c][1..] == [b, c] && [b, c][1..] == [c] && [c][1..] == [];
    assert ShownMasks([c]) == (if c != "" then [SetupMask(c)] else []) + ShownMasks([]);
    assert ShownMasks([b, c]) == (if b != "" then [SetupMask(b)] else []) + ShownMasks([c]);
  }

  lemma UpdateOtherKey(e: Entries, key: string, current: string, p: Prompt, k: string)
    requires k != key
    ensures Lookup(UpdateKey(e, key, current, p), k) == Lookup(e, k)
  {
    SetLookup(e, key, Strip(p.entered), k);
  }

  lemma UpdateSameKey(e: Entries, key: string, current: string, p: Prompt)
    ensures Lookup(UpdateKey(e, key, current, p), key)
            == if Replaces(current, p) then Some(Strip(p.entered)) else Lookup(e, key)
  {
    SetLookup(e, key, Strip(p.entered), key);
  }

  /** Each of the three keys is replaced by the stripped text entered exactly when it had no
      value or the answer was "y"; otherwise it keeps the value loaded from the file. A key
      taken from `config` and not changed is therefore not written to the file. */
  lemma KeyReplacedOnlyWhenAsked(loaded: Entries, config: Option<string>, weather: Prompt,
                                 news: Prompt, huggingFace: Prompt)
    ensures var r := Configured(loaded, config, weather, news, huggingFace);
            Lookup(r, WeatherKey) == (if Replaces(Get(loaded, WeatherKey), weather)
                                      then Some(Strip(weather.entered)) else Lookup(loaded, WeatherKey))
    ensures var r := Configured(loaded, config, weather, news, huggingFace);
            Lookup(r, NewsKey) == (if Replaces(Get(loaded, NewsKey), news)
                                   then Some(Strip(news.entered)) else Lookup(loaded, NewsKey))
    ensures var r := Configured(loaded, config, weather, news, huggingFace);
            Lookup(r, HuggingFaceKey) == (if Replaces(HuggingFaceCurrent(config, loaded), huggingFace)
                                          then Some(Strip(huggingFace.entered)) else Lookup(loaded, HuggingFaceKey))
  {
    var e1 := UpdateKey(loaded, WeatherKey, Get(loaded, WeatherKey), weather);
    var e2 := UpdateKey(e1, NewsKey, Get(e1, NewsKey), news);
    var hf := HuggingFaceCurrent(config, e2);
    UpdateSameKey(loaded, WeatherKey, Get(loaded, WeatherKey), weather);
    UpdateOtherKey(e1, NewsKey, Get(e1, NewsKey), news, WeatherKey);
    UpdateOtherKey(e2, HuggingFaceKey, hf, huggingFace, WeatherKey);
    UpdateOtherKey(loaded, WeatherKey, Get(loaded, WeatherKey), weather, NewsKey);
    UpdateSameKey(e1, NewsKey, Get(e1, NewsKey), news);
    UpdateOtherKey(e2, HuggingFaceKey, hf, huggingFace, NewsKey);
    UpdateOtherKey(loaded, WeatherKey, Get(loaded, WeatherKey), weather, HuggingFaceKey);
    UpdateOtherKey(e1, NewsKey, Get(e1, NewsKey), news, HuggingFaceKey);
    UpdateSameKey(e2, HuggingFaceKey, hf, huggingFace);
  }

  /** Every other key loaded from the file is written back with its value. */
  lemma OtherKeysKept(loaded: Entries, config: Option<string>, weather: Prompt, news: Prompt,
                      huggingFace: Prompt, k: string)
    requires k != WeatherKey && k != NewsKey && k != HuggingFaceKey
    ensures Lookup(Configured(loaded, config, weather, news, huggingFace), k) == Lookup(loaded, k)
  {
    var e1 := UpdateKey(loaded, WeatherKey, Get(loaded, WeatherKey), weather);
    var e2 := UpdateKey(e1, NewsKey, Get(e1, NewsKey), news);
    UpdateOtherKey(loaded, WeatherKey, Get(loaded, WeatherKey), weather, k);
    UpdateOtherKey(e1, NewsKey, Get(e1, NewsKey), news, k);
    UpdateOtherKey(e2, HuggingFaceKey, HuggingFaceCurrent(config, e2), huggingFace, k);
  }

  predicate IsApiKey(k: string) {
    k == WeatherKey || k == NewsKey || k == HuggingFaceKey
  }

  /** `b` keeps the keys of `a` in their places and adds only API keys after them. */
  predicate Extends(a: Entries, b: Entries) {
    |a| <= |b| && (forall i :: 0 <= i < |a| ==> b[i].0 == a[i].0)
    && (forall i :: |a| <= i < |b| ==> IsApiKey(b[i].0))
  }

  lemma ExtendsTransitive(a: Entries, b: Entries, c: Entries)
    requires Extends(a, b) && Extends(b, c)
    ensures Extends(a, c)
  {
  }

  lemma UpdateExtends(e: Entries, key: string, current: string, p: Prompt)
    requires IsApiKey(key)
    ensures Extends(e, UpdateKey(e, key, current, p))
  {
    SetShape(e, key, Strip(p.entered));
  }

  /** The keys keep their order: the file's keys come first, then those of the three keys it
      lacked. */
  lemma KeyOrderKept(loaded: Entries, config: Option<string>, weather: Prompt, news: Prompt,
                     huggingFace: Prompt)
    ensures Extends(loaded, Configured(loaded, config, weather, news, huggingFace))
  {
    var e1 := UpdateKey(loaded, WeatherKey, Get(loaded, WeatherKey), weather);
    var e2 := UpdateKey(e1, NewsKey, Get(e1, NewsKey), news);
    var r := UpdateKey(e2, HuggingFaceKey, HuggingFaceCurrent(config, e2), huggingFace);
    UpdateExtends(loaded, WeatherKey, Get(loaded, WeatherKey), weather);
    UpdateExtends(e1, NewsKey, Get(e1, NewsKey), news);
    UpdateExtends(e2, HuggingFaceKey, HuggingFaceCurrent(config, e2), huggingFace);
    ExtendsTransitive(loaded, e1, e2);
    ExtendsTransitive(loaded, e2, r);
  }

  /** The file written by the setup loads back to the dictionary it was written from, as long as
      no entered key holds a line break. */
  lemma SavedFileReloads(file: Option<string>, config: Option<string>, weather: Prompt,
                         news: Prompt, huggingFace: Prompt)
    requires forall p :: p in [weather, news, huggingFace] ==> '\n' !in p.entered && '\r' !in p.entered
    ensures var r := Configured(Loaded(file), config, weather, news, huggingFace);
            ReadEntries(EnvText(r)) == r
  {
    var loaded := Loaded(file);
    if file.Some? {
      ReadEntriesWellFormed(file.value);
    }
    var e1 := UpdateKey(loaded, WeatherKey, Get(loaded, WeatherKey), weather);
    var e2 := UpdateKey(e1, NewsKey, Get(e1, NewsKey), news);
    var r := UpdateKey(e2, HuggingFaceKey, HuggingFaceCurrent(config, e2), huggingFace);
    KeyNamesWellFormed();
    UpdateKeepsWellFormed(loaded, WeatherKey, Get(loaded, WeatherKey), weather);
    UpdateKeepsWellFormed(e1, NewsKey, Get(e1, NewsKey), news);
    UpdateKeepsWellFormed(e2, HuggingFaceKey, HuggingFaceCurrent(config, e2), huggingFace);
    WriteThenRead(r);
  }

  /** Capital letters and underscores make a key that reads back as itself. */
  lemma NameWellFormed(key: string)
    requires forall i :: 0 <= i < |key| ==> 'A' <= key[i] <= 'Z' || key[i] == '_'
    ensures KeyWellFormed(key)
  {
  }

  /** The three key names can be written and read back. */
  lemma KeyNamesWellFormed()
    ensures KeyWellFormed(WeatherKey) && KeyWellFormed(NewsKey) && KeyWellFormed(HuggingFaceKey)
  {
    NameWellFormed(WeatherKey);
    NameWellFormed(NewsKey);
    NameWellFormed(HuggingFaceKey);
  }

  /** A stripped entry without line breaks is a value that reads back as itself. */
  lemma StrippedValueWellFormed(s: string)
    requires '\n' !in s && '\r' !in s
    ensures ValueWellFormed(Strip(s))
  {
    StripWithin(s, '\n');
    StripWithin(s, '\r');
  }

  lemma UpdateKeepsWellFormed(e: Entries, key: string, current: string, p: Prompt)
    requires DistinctKeys(e) && AllWellFormed(e)
    requires KeyWellFormed(key) && '\n' !in p.entered && '\r' !in p.entered
    ensures DistinctKeys(UpdateKey(e, key, current, p)) && AllWellFormed(UpdateKey(e, key, current, p))
  {
    var v := Strip(p.entered);
    StrippedValueWellFormed(p.entered);
    SetKeepsDistinct(e, key, v);
    SetKeepsWellFormed(e, key, v);
  }

  /** The prompt for one key: show the current value masked and ask whether to change it, or
      ask for it at once when it has none. */
  method AskKey(env: Entries, key: string, current: string, p: Prompt)
    returns (updated: Entries, shown: seq<string>)
    ensures updated == UpdateKey(env, key, current, p)
    ensures shown == if current != "" then [SetupMask(current)] else []
    ensures Lookup(updated, key) == if Replaces(current, p) then Some(Strip(p.entered)) else Lookup(env, key)
  {
    var change: bool;
    if current != "" {
      shown := [SetupMask(current)];
      change := Lower(p.answer) == "y";
    } else {
      shown := [];
      change := true;
    }
    updated := env;
    if change {
      updated := Set(env, key, Strip(p.entered));
    }
    UpdateSameKey(env, key, current, p);
  }

  /** setup_api_keys.py:63-71: the key `config` imports, or the file's when the import fails or
      gives an empty key. */
  method CurrentHuggingFaceKey(config: Option<string>, env: Entries) returns (key: string)
    ensures key == HuggingFaceCurrent(config, env)
    ensures key == "" <==> (config.None? || config.value == "") && Get(env, HuggingFaceKey) == ""
  {
    key := "";
    if config.Some? {
      key := config.value;
    }
    if key == "" {
      key := Get(env, HuggingFaceKey);
    }
  }

  /** Asking about one key leaves the current values of the keys asked about later as loaded. */
  lemma CurrentsKept(loaded: Entries, config: Option<string>, weather: Prompt, news: Prompt)
    ensures var e1 := UpdateKey(loaded, WeatherKey, Get(loaded, WeatherKey), weather);
            Get(e1, NewsKey) == Get(loaded, NewsKey)
            && HuggingFaceCurrent(config, UpdateKey(e1, NewsKey, Get(e1, NewsKey), news))
               == HuggingFaceCurrent(config, loaded)
  {
    var e1 := UpdateKey(loaded, WeatherKey, Get(loaded, WeatherKey), weather);
    UpdateOtherKey(loaded, WeatherKey, Get(loaded, WeatherKey), weather, NewsKey);
    UpdateOtherKey(loaded, WeatherKey, Get(loaded, WeatherKey), weather, HuggingFaceKey);
    UpdateOtherKey(e1, NewsKey, Get(e1, NewsKey), news, HuggingFaceKey);
  }

  lemma ShownMasksOfCurrents(loaded: Entries, config: Option<string>)
    ensures var c := Currents(loaded, config);
            ShownMasks(c) == (if c[0] != "" then [SetupMask(c[0])] else [])
                             + (if c[1] != "" then [SetupMask(c[1])] else [])
                             + (if c[2] != "" then [SetupMask(c[2])] else [])
  {
    var c := Currents(loaded, config);
    ShownMasksOfThree(c[0], c[1], c[2]);
  }

  /** `setup_api_keys`: load the file if there is one, go through the three keys, write every
      entry back, and return 0. `written` is the new text of the file and `shown` the masks
      printed, in order. */
  method SetupApiKeys(file: Option<string>, config: Option<string>, weather: Prompt, news: Prompt,
                      huggingFace: Prompt)
    returns (code: int, written: string, shown: seq<string>)
    ensures code == 0
    ensures written == EnvText(Configured(Loaded(file), config, weather, news, huggingFace))
    ensures shown == ShownMasks(Currents(Loaded(file), config))
  {
    var env: Entries := [];
    if file.Some? {
      env := LoadEntries(file.value);
    }
    ghost var loaded := env;
    CurrentsKept(loaded, config, weather, news);
    ShownMasksOfCurrents(loaded, config);

    var weatherKey := Get(env, WeatherKey);
    var shownWeather;
    env, shownWeather := AskKey(env, WeatherKey, weatherKey, weather);

    var newsKey := Get(env, NewsKey);
    var shownNews;
    env, shownNews := AskKey(env, NewsKey, newsKey, news);

    var huggingFaceKey := CurrentHuggingFaceKey(config, env);
    var shownHuggingFace;
    env, shownHuggingFace := AskKey(env, HuggingFaceKey, huggingFaceKey, huggingFace);

    shown := shownWeather + shownNews + shownHuggingFace;
    written := WriteEnv(env);
    code := 0;
  }
}
