/** Query extraction and URL choice of the web search (web_search.py): the ordinal parser
    `extract_video_index`, the query cleaning of `get_youtube_video_url`, and the three branches of
    `search_web`. The page a branch opens is the model's output; fetching and scraping the YouTube
    results page is an oracle (`Scraper`). */
module WebSearch {
  import opened Common

  // ---------------------------------------------------------------------------------------------
  // extract_video_index

  /** The ordinal words and their zero-based indices, in the dictionary's insertion order. */
  const NumberWords: seq<(string, int)> := [
    ("first", 0), ("1st", 0), ("second", 1), ("2nd", 1), ("third", 2), ("3rd", 2),
    ("fourth", 3), ("4th", 3), ("fifth", 4), ("5th", 4),
    ("one", 0), ("two", 1), ("three", 2), ("four", 3), ("five", 4)
  ]

  /** The index of the first table word, in table order, that occurs in `lower`. */
  function FirstTableIndex(lower: string, table: seq<(string, int)>): (r: Option<int>)
    ensures r.Some? ==> exists k :: 0 <= k < |table| && r.value == table[k].1
  {
    if table == [] then None
    else if Contains(lower, table[0].0) then Some(table[0].1)
    else
      var r := FirstTableIndex(lower, table[1..]);
      assert r.Some? ==> exists k :: 0 <= k < |table| - 1 && r.value == table[1..][k].1;
      r
  }

  /** The regular-expression class `\d`, on ASCII digits. */
  predicate IsDigit(c: char) { '0' <= c <= '9' }

  /** The digits at the start of `s`. */
  function DigitPrefix(s: string): (r: string)
    ensures |r| <= |s| && forall i :: 0 <= i < |r| ==> IsDigit(r[i])
  {
    if s != [] && IsDigit(s[0]) then [s[0]] + DigitPrefix(s[1..]) else []
  }

  /** `re.findall(r'\d+', s)[0]`: the first maximal run of digits, if there is one. */
  function FirstDigitRun(s: string): (r: Option<string>)
    ensures r.Some? ==> r.value != [] && forall i :: 0 <= i < |r.value| ==> IsDigit(r.value[i])
  {
    if s == [] then None
    else if IsDigit(s[0]) then Some(DigitPrefix(s))
    else FirstDigitRun(s[1..])
  }

  /** `int(digits)` */
  function DigitsValue(digits: string): nat {
    if digits == [] then 0
    else
      var d := digits[|digits| - 1] as int - '0' as int;
      DigitsValue(digits[..|digits| - 1]) * 10 + (if 0 <= d <= 9 then d else 0)
  }

  /** `extract_video_index`: the first ordinal word of the table, else the first number minus
      one, else 0. */
  function ExtractVideoIndex(command: string): (r: int)
    ensures r >= -1
  {
    var lower := Lower(command);
    match FirstTableIndex(lower, NumberWords)
    case Some(k) => k
    case None =>
      match FirstDigitRun(lower)
      case Some(digits) => DigitsValue(digits) - 1
      case None => 0
  }

  lemma {:induction false} FirstWordDecides(lower: string, table: seq<(string, int)>, k: nat)
    requires k < |table| && Contains(lower, table[k].0)
    requires forall j :: 0 <= j < k ==> !Contains(lower, table[j].0)
    ensures FirstTableIndex(lower, table) == Some(table[k].1)
    decreases k
  {
    if k > 0 {
      assert !Contains(lower, table[0].0);
      FirstWordDecides(lower, table[1..], k - 1);
    }
  }

  lemma {:induction false} NoWordNoIndex(lower: string, table: seq<(string, int)>)
    requires forall j :: 0 <= j < |table| ==> !Contains(lower, table[j].0)
    ensures FirstTableIndex(lower, table) == None
    decreases |table|
  {
    if table != [] {
      NoWordNoIndex(lower, table[1..]);
    }
  }

  /** The first table word that occurs decides the index, whatever else the command holds. */
  lemma TableWordDecides(command: string, k: nat)
    requires k < |NumberWords| && Contains(Lower(command), NumberWords[k].0)
    requires forall j :: 0 <= j < k ==> !Contains(Lower(command), NumberWords[j].0)
    ensures ExtractVideoIndex(command) == NumberWords[k].1
  {
    FirstWordDecides(Lower(command), NumberWords, k);
  }

  /** Without a table word the first number counts from one; with neither the index is 0. */
  lemma NumberOrDefault(command: string)
    requires forall j :: 0 <= j < |NumberWords| ==> !Contains(Lower(command), NumberWords[j].0)
    ensures FirstDigitRun(Lower(command)).Some? ==>
              ExtractVideoIndex(command) == DigitsValue(FirstDigitRun(Lower(command)).value) - 1
    ensures FirstDigitRun(Lower(command)).None? ==> ExtractVideoIndex(command) == 0
  {
    NoWordNoIndex(Lower(command), NumberWords);
  }

  /** "second" comes before "one" in the table: "second one" is index 1. */
  lemma SecondOneIsSecond()
    ensures ExtractVideoIndex("second one") == 1
  {
    var lower := Lower("second one");
    assert lower == "second one";
    MissingCharNotContained(lower, "first", 'f');
    MissingCharNotContained(lower, "1st", '1');
    assert OccursAt(lower, "second", 0);
    TableWordDecides("second one", 2);
  }

  /** "0" is read as the number zero, giving index -1: the last result. */
  lemma ZeroIsMinusOne()
    ensures ExtractVideoIndex("0") == -1
  {
    assert Lower("0") == "0";
    NoWordNoIndex("0", NumberWords);
    assert "0"[1..] == [];
    assert DigitPrefix("0"[1..]) == [];
    assert DigitPrefix("0") == "0";
    assert FirstDigitRun("0") == Some("0");
  }

  // ---------------------------------------------------------------------------------------------
  // Query cleaning in get_youtube_video_url

  /** The regular-expression class `\w`, on ASCII. */
  predicate IsWordChar(c: char) {
    ('a' <= c <= 'z') || ('A' <= c <= 'Z') || ('0' <= c <= '9') || c == '_'
  }

  /** `re.sub(r'[^\w\s]', '', s)` */
  function DropPunctuation(s: string): (r: string)
    ensures forall i :: 0 <= i < |r| ==> IsWordChar(r[i]) || IsSpace(r[i])
  {
    if s == [] then []
    else (if IsWordChar(s[0]) || IsSpace(s[0]) then [s[0]] else []) + DropPunctuation(s[1..])
  }

  /** `re.sub(r'\s+', '+', s)` */
  function PlusForSpaces(s: string): string
    decreases |s|
  {
    if s == [] then []
    else if IsSpace(s[0]) then "+" + PlusForSpaces(TrimStart(s[1..]))
    else [s[0]] + PlusForSpaces(s[1..])
  }

  /** The query as it goes into the search URL. */
  function CleanQuery(query: string): string {
    PlusForSpaces(DropPunctuation(query))
  }

  lemma {:induction false} PlusForSpacesShape(s: string)
    requires forall i :: 0 <= i < |s| ==> IsWordChar(s[i]) || IsSpace(s[i])
    ensures var r := PlusForSpaces(s);
            && (forall i :: 0 <= i < |r| ==> IsWordChar(r[i]) || r[i] == '+')
            && (forall i :: 0 <= i < |r| - 1 ==> !(r[i] == '+' && r[i + 1] == '+'))
            && (s != [] ==> r != [] && (r[0] == '+' <==> IsSpace(s[0])))
    decreases |s|
  {
    if s != [] {
      if IsSpace(s[0]) {
        var t := TrimStart(s[1..]);
        assert t == s[1..][|s[1..]| - |t|..];
        PlusForSpacesShape(t);
      } else {
        PlusForSpacesShape(s[1..]);
      }
    }
  }

  /** A cleaned query holds only word characters and '+', and never two '+' in a row. */
  lemma CleanQueryShape(query: string)
    ensures var r := CleanQuery(query);
            && (forall i :: 0 <= i < |r| ==> IsWordChar(r[i]) || r[i] == '+')
            && (forall i :: 0 <= i < |r| - 1 ==> !(r[i] == '+' && r[i + 1] == '+'))
  {
    PlusForSpacesShape(DropPunctuation(query));
  }

  /** The word characters of `s`, in order. */
  function WordChars(s: string): string {
    if s == [] then [] else (if IsWordChar(s[0]) then [s[0]] else []) + WordChars(s[1..])
  }

  /** `s` with its '+' characters deleted. */
  function WithoutPlus(s: string): string {
    if s == [] then [] else (if s[0] == '+' then [] else [s[0]]) + WithoutPlus(s[1..])
  }

  /** How many times `c` occurs in `s`. */
  function Occurrences(s: string, c: char): nat {
    if s == [] then 0 else (if s[0] == c then 1 else 0) + Occurrences(s[1..], c)
  }

  /** The number of whitespace characters of `s` that start a maximal whitespace run, when the
      character before `s` was whitespace (`afterSpace`) or not. */
  function RunsFrom(s: string, afterSpace: bool): nat {
    if s == [] then 0
    else (if IsSpace(s[0]) && !afterSpace then 1 else 0) + RunsFrom(s[1..], IsSpace(s[0]))
  }

  /** The number of maximal whitespace runs of `s`. */
  function SpaceRuns(s: string): nat {
    RunsFrom(s, false)
  }

  /** Leading whitespace holds no word character and starts no new run after whitespace. */
  lemma {:induction false} TrimStartKeepsContent(u: string)
    ensures WordChars(TrimStart(u)) == WordChars(u)
    ensures RunsFrom(TrimStart(u), true) == RunsFrom(u, true)
    decreases |u|
  {
    if u != [] && IsSpace(u[0]) {
      TrimStartKeepsContent(u[1..]);
    }
  }

  /** After a run is collapsed, what follows is empty or starts with a non-space, so it does not
      matter whether whitespace came before it. */
  lemma AfterRunIsFresh(t: string)
    requires t == [] || !IsSpace(t[0])
    ensures RunsFrom(t, true) == RunsFrom(t, false)
  {
  }

  lemma PlusHead(x: string)
    ensures WithoutPlus("+" + x) == WithoutPlus(x)
    ensures Occurrences("+" + x, '+') == 1 + Occurrences(x, '+')
  {
    assert ("+" + x)[1..] == x;
  }

  lemma CharHead(c: char, x: string)
    requires c != '+'
    ensures WithoutPlus([c] + x) == [c] + WithoutPlus(x)
    ensures Occurrences([c] + x, '+') == Occurrences(x, '+')
  {
    assert ([c] + x)[1..] == x;
  }

  /** `re.sub(r'\s+', '+', s)` on text of word characters and whitespace: deleting the '+' gives
      the word characters back in order, and there is one '+' per whitespace run. */
  lemma {:induction false} PlusForSpacesContent(s: string)
    requires forall i :: 0 <= i < |s| ==> IsWordChar(s[i]) || IsSpace(s[i])
    ensures WithoutPlus(PlusForSpaces(s)) == WordChars(s)
    ensures Occurrences(PlusForSpaces(s), '+') == SpaceRuns(s)
    decreases |s|
  {
    if s != [] {
      if IsSpace(s[0]) {
        var t := TrimStart(s[1..]);
        assert t == s[1..][|s[1..]| - |t|..];
        PlusForSpacesContent(t);
        TrimStartKeepsContent(s[1..]);
        AfterRunIsFresh(t);
        PlusHead(PlusForSpaces(t));
      } else {
        PlusForSpacesContent(s[1..]);
        CharHead(s[0], PlusForSpaces(s[1..]));
      }
    }
  }

  /** `re.sub(r'[^\w\s]', '', s)` keeps every word character, in order. */
  lemma {:induction false} DropPunctuationKeepsWords(s: string)
    ensures WordChars(DropPunctuation(s)) == WordChars(s)
    decreases |s|
  {
    if s != [] {
      DropPunctuationKeepsWords(s[1..]);
      var rest := DropPunctuation(s[1..]);
      if IsWordChar(s[0]) || IsSpace(s[0]) {
        assert DropPunctuation(s) == [s[0]] + rest;
        assert ([s[0]] + rest)[1..] == rest;
      } else {
        assert DropPunctuation(s) == rest;
      }
    }
  }

  /** The cleaned query keeps exactly the word characters of the query, in order, separated by
      one '+' for each whitespace run left after the punctuation is removed. */
  lemma CleanQueryContent(query: string)
    ensures WithoutPlus(CleanQuery(query)) == WordChars(query)
    ensures Occurrences(CleanQuery(query), '+') == SpaceRuns(DropPunctuation(query))
  {
    PlusForSpacesContent(DropPunctuation(query));
    DropPunctuationKeepsWords(query);
  }

  // ---------------------------------------------------------------------------------------------
  // search_web

  const YouTubeResults: string := "https://www.youtube.com/results?search_query="
  const YouTubeWatchBase: string := "https://www.youtube.com"
  const GoogleSearch: string := "https://www.google.com/search?q="

  /** Fetching a YouTube results page and collecting the `href` of each result link, None for a
      link without one: None when the request fails or does not answer 200. */
  type Scraper = string -> Option<seq<Option<string>>>

  /** The page `search_web` opens (None: it opens nothing) and the value it returns. */
  datatype SearchOutcome = SearchOutcome(ok: bool, page: Option<string>)

  /** `video_elements[video_index]['href']` behind the guard `len(video_elements) > video_index`;
      a negative index counts from the end, and one past the start raises and gives None, as does
      a chosen link without `href`. */
  function PickResult(links: seq<Option<string>>, index: int): Option<string> {
    if |links| > 0 && |links| > index then
      if index >= 0 then links[index]
      else if -|links| <= index then links[|links| + index]
      else None
    else None
  }

  /** The chosen link is the one at the index, counted from the end when negative; nothing is
      chosen beyond either end, and a link without `href` gives nothing. */
  lemma PickResultMeaning(links: seq<Option<string>>, index: int)
    ensures 0 <= index < |links| ==> PickResult(links, index) == links[index]
    ensures -|links| <= index < 0 ==> PickResult(links, index) == links[|links| + index]
    ensures (index >= |links| || index < -|links|) ==> PickResult(links, index) == None
    ensures PickResult(links, index).Some? ==> exists k :: 0 <= k < |links| && links[k] == PickResult(links, index)
  {
    if PickResult(links, index).Some? {
      var k := if index >= 0 then index else |links| + index;
      assert links[k] == PickResult(links, index);
    }
  }

  /** `get_youtube_video_url` */
  function YouTubeVideoUrl(query: string, index: int, scrape: Scraper): Option<string> {
    match scrape(YouTubeResults + CleanQuery(query))
    case None => None
    case Some(links) =>
      match PickResult(links, index)
      case None => None
      case Some(href) => Some(YouTubeWatchBase + href)
  }

  /** The YouTube query: lowercased, every "search", "youtube", "for" and "look up" removed in
      that order, then stripped. */
  function YouTubeQuery(command: string): string {
    Strip(ReplaceAll(ReplaceAll(ReplaceAll(ReplaceAll(Lower(command), "search", ""), "youtube", ""), "for", ""), "look up", ""))
  }

  /** The length of the line `s` starts with (up to its first newline). */
  function LineLength(s: string): (n: nat)
    ensures n <= |s| && '\n' !in s[..n]
    ensures n < |s| ==> s[n] == '\n'
  {
    if s == [] || s[0] == '\n' then 0
    else
      var n := 1 + LineLength(s[1..]);
      assert s[..n] == [s[0]] + s[1..][..n - 1];
      n
  }

  /** The last index at which `w` occurs in `s`. */
  function LastOccurrence(s: string, w: string): (r: Option<nat>)
    ensures r.Some? ==> OccursAt(s, w, r.value) && forall j :: r.value < j ==> !OccursAt(s, w, j)
    ensures r.None? ==> !Contains(s, w)
  {
    if |s| < |w| then None
    else if OccursAt(s, w, |s| - |w|) then Some(|s| - |w|)
    else
      var r := LastOccurrence(s[..|s| - 1], w);
      PrefixOccurrences(s, w);
      r
  }

  /** The occurrences in `s` without its last character are those of `s` that end before it. */
  lemma PrefixOccurrences(s: string, w: string)
    requires s != []
    ensures forall j :: OccursAt(s[..|s| - 1], w, j) ==> OccursAt(s, w, j)
    ensures forall j :: OccursAt(s, w, j) && j + |w| < |s| ==> OccursAt(s[..|s| - 1], w, j)
  {
    forall j | OccursAt(s[..|s| - 1], w, j)
      ensures OccursAt(s, w, j)
    {
      assert s[..|s| - 1][j..j + |w|] == s[j..j + |w|];
    }
    forall j | OccursAt(s, w, j) && j + |w| < |s|
      ensures OccursAt(s[..|s| - 1], w, j)
    {
      assert s[..|s| - 1][j..j + |w|] == s[j..j + |w|];
    }
  }

  /** `re.sub(r'.*google\s*', '', s)`: at each position, the rest of the line up to and including
      its last "google", and the whitespace after it, are removed; where the line has no "google"
      one character is kept and the scan moves on. `.` does not match a newline; `\s` does. */
  function SubGoogle(s: string): string
    decreases |s|
  {
    if s == [] then []
    else
      match LastOccurrence(s[..LineLength(s)], "google")
      case Some(q) => SubGoogle(TrimStart(s[q + 6..]))
      case None => [s[0]] + SubGoogle(s[1..])
  }

  /** The Google query; the pattern is case-sensitive. */
  function GoogleQuery(command: string): string {
    Strip(SubGoogle(command))
  }

  /** The number of whitespace characters `s` starts with. */
  function SpaceRun(s: string): (n: nat)
    ensures n <= |s|
  {
    |s| - |TrimStart(s)|
  }

  /** The length of the match of `search\s+|look\s+up\s+|find\s+` at the start of `s`, or 0. */
  function SearchWordMatch(s: string): (n: nat)
    ensures n <= |s|
  {
    if StartsWith(s, "search") && SpaceRun(s[6..]) > 0 then 6 + SpaceRun(s[6..])
    else if StartsWith(s, "look") && SpaceRun(s[4..]) > 0
            && StartsWith(s[4 + SpaceRun(s[4..])..], "up")
            && SpaceRun(s[4 + SpaceRun(s[4..]) + 2..]) > 0
    then 4 + SpaceRun(s[4..]) + 2 + SpaceRun(s[4 + SpaceRun(s[4..]) + 2..])
    else if StartsWith(s, "find") && SpaceRun(s[4..]) > 0 then 4 + SpaceRun(s[4..])
    else 0
  }

  /** `re.sub(r'search\s+|look\s+up\s+|find\s+', '', s)` */
  function SubSearchWords(s: string): string
    decreases |s|
  {
    if s == [] then []
    else if SearchWordMatch(s) > 0 then SubSearchWords(s[SearchWordMatch(s)..])
    else [s[0]] + SubSearchWords(s[1..])
  }

  /** The query of a plain web search. */
  function DefaultQuery(command: string): string {
    Strip(SubSearchWords(command))
  }

  /** `search_web`: YouTube first, then Google, then a default Google search. */
  function SearchWeb(command: string, scrape: Scraper): SearchOutcome {
    var lower := Lower(command);
    if Contains(lower, "youtube") then
      var query := YouTubeQuery(command);
      if query == [] then SearchOutcome(false, None)
      else if Contains(lower, "play") || Contains(lower, "watch") then
        match YouTubeVideoUrl(query, ExtractVideoIndex(command), scrape)
        case Some(url) => SearchOutcome(true, Some(url))
        case None => SearchOutcome(true, Some(YouTubeResults + query))
      else SearchOutcome(true, Some(YouTubeResults + query))
    else if Contains(lower, "google") then
      var query := GoogleQuery(command);
      if query == [] then SearchOutcome(false, None)
      else SearchOutcome(true, Some(GoogleSearch + query))
    else SearchOutcome(true, Some(GoogleSearch + DefaultQuery(command)))
  }

  /** A search fails only on an empty YouTube query or an empty Google query, and opens a page
      exactly when it succeeds. */
  lemma SearchFailsOnlyOnEmptyQuery(command: string, scrape: Scraper)
    ensures SearchWeb(command, scrape).ok <==> SearchWeb(command, scrape).page.Some?
    ensures !SearchWeb(command, scrape).ok <==>
              if Contains(Lower(command), "youtube") then YouTubeQuery(command) == []
              else Contains(Lower(command), "google") && GoogleQuery(command) == []
  {
  }

  /** "youtube" wins over "google": such a command only ever opens a YouTube page. */
  lemma YouTubeBeatsGoogle(command: string, scrape: Scraper)
    requires Contains(Lower(command), "youtube")
    ensures SearchWeb(command, scrape).page.Some? ==>
              StartsWith(SearchWeb(command, scrape).page.value, YouTubeWatchBase)
  {
    assert StartsWith(YouTubeResults, YouTubeWatchBase);
    var r := SearchWeb(command, scrape);
    if r.page.Some? {
      var o := r.page.value;
      assert o[..|YouTubeWatchBase|] == YouTubeWatchBase;
    }
  }

  /** A YouTube request to play or watch always succeeds: the found video, or else the results
      page for the uncleaned query. */
  lemma PlayOnYouTubeAlwaysOpens(command: string, scrape: Scraper)
    requires Contains(Lower(command), "youtube") && YouTubeQuery(command) != []
    requires Contains(Lower(command), "play") || Contains(Lower(command), "watch")
    ensures SearchWeb(command, scrape).ok
    ensures SearchWeb(command, scrape).page ==
              var found := YouTubeVideoUrl(YouTubeQuery(command), ExtractVideoIndex(command), scrape);
              if found.Some? then found else Some(YouTubeResults + YouTubeQuery(command))
  {
  }

  lemma TrimStartIdempotent(s: string)
    ensures TrimStart(TrimStart(s)) == TrimStart(s)
  {
  }

  lemma {:induction false} SubGoogleWithoutGoogle(s: string)
    requires !Contains(s, "google")
    ensures SubGoogle(s) == s
    decreases |s|
  {
    if s != [] {
      PrefixKeepsMissing(s, "google", LineLength(s));
      TailKeepsMissing(s, "google");
      SubGoogleWithoutGoogle(s[1..]);
    }
  }

  /** Where the current line has a "google", the scan jumps past its last one and the spaces after. */
  lemma SubGoogleJumps(s: string, q: nat)
    requires s != [] && LastOccurrence(s[..LineLength(s)], "google") == Some(q)
    ensures SubGoogle(s) == SubGoogle(TrimStart(s[q + 6..]))
  {
  }

  /** The last occurrence is the one no other occurrence follows. */
  lemma LastOccurrenceIs(s: string, w: string, q: nat)
    requires OccursAt(s, w, q) && forall j :: q < j ==> !OccursAt(s, w, j)
    ensures LastOccurrence(s, w) == Some(q)
  {
    var r := LastOccurrence(s, w);
    if r.None? {
      ContainsAt(s, w, q);
    }
  }

  /** A suffix of text after the last "google" has no "google". */
  lemma NoGoogleAfterLast(command: string, q: nat, t: string)
    requires OccursAt(command, "google", q)
    requires forall j :: q < j ==> !OccursAt(command, "google", j)
    requires EndsWith(command[q + 6..], t)
    ensures !Contains(t, "google")
  {
    var start := |command| - |t|;
    assert t == command[start..];
    forall j | 0 <= j && j + 6 <= |t|
      ensures !OccursAt(t, "google", j)
    {
      assert t[j..j + 6] == command[start + j..start + j + 6];
      assert !OccursAt(command, "google", start + j);
    }
  }

  /** On one line, the Google query is what follows the last "google", stripped. */
  lemma GoogleQueryAfterLastGoogle(command: string, q: nat)
    requires '\n' !in command
    requires OccursAt(command, "google", q)
    requires forall j :: q < j ==> !OccursAt(command, "google", j)
    ensures GoogleQuery(command) == Strip(command[q + 6..])
  {
    var n := LineLength(command);
    assert command[..n] == command;
    LastOccurrenceIs(command, "google", q);
    SubGoogleJumps(command, q);
    var rest := command[q + 6..];
    var t := TrimStart(rest);
    NoGoogleAfterLast(command, q, t);
    SubGoogleWithoutGoogle(t);
    TrimStartIdempotent(rest);
  }

  /** The Google pattern is case-sensitive: a command that says "google" only in capitals takes
      the Google branch and searches for its whole text, stripped. */
  lemma CapitalGoogleIsKept(command: string, scrape: Scraper)
    requires !Contains(Lower(command), "youtube") && Contains(Lower(command), "google")
    requires !Contains(command, "google")
    ensures SearchWeb(command, scrape).ok <==> Strip(command) != []
    ensures SearchWeb(command, scrape).ok ==> SearchWeb(command, scrape).page == Some(GoogleSearch + Strip(command))
  {
    SubGoogleWithoutGoogle(command);
  }

  /** The default branch always succeeds, with "search ", "look up " and "find " removed. */
  lemma DefaultSearchAlwaysOpens(command: string, scrape: Scraper)
    requires !Contains(Lower(command), "youtube") && !Contains(Lower(command), "google")
    ensures SearchWeb(command, scrape) == SearchOutcome(true, Some(GoogleSearch + DefaultQuery(command)))
  {
  }

  /** A text without "search", "look" or "find" goes through the search-word removal unchanged. */
  lemma {:induction false} NoSearchWordsKept(s: string)
    requires !Contains(s, "search") && !Contains(s, "look") && !Contains(s, "find")
    ensures SubSearchWords(s) == s
    decreases |s|
  {
    if s != [] {
      if StartsWith(s, "search") { StartsWithContains(s, "search"); }
      if StartsWith(s, "look") { StartsWithContains(s, "look"); }
      if StartsWith(s, "find") { StartsWithContains(s, "find"); }
      TailKeepsMissing(s, "search");
      TailKeepsMissing(s, "look");
      TailKeepsMissing(s, "find");
      NoSearchWordsKept(s[1..]);
    }
  }

  lemma SearchForCatsMatch()
    ensures SearchWordMatch("search for cats") == 7
  {
    var s := "search for cats";
    assert s[6..] == " " + "for cats";
    assert TrimStart(" " + "for cats") == "for cats";
    assert StartsWith(s, "search");
  }

  lemma ForCatsKept()
    ensures SubSearchWords("for cats") == "for cats"
  {
    var rest := "for cats";
    MissingCharNotContained(rest, "search", 'h');
    MissingCharNotContained(rest, "look", 'k');
    MissingCharNotContained(rest, "find", 'i');
    NoSearchWordsKept(rest);
  }

  lemma ForCatsStripped()
    ensures Strip("for cats") == "for cats"
  {
    assert TrimStart("for cats") == "for cats";
    assert TrimEnd("for cats") == "for cats";
  }

  /** For example, "search for cats" searches Google for "for cats". */
  lemma SearchForCats()
    ensures DefaultQuery("search for cats") == "for cats"
  {
    SearchForCatsMatch();
    assert "search for cats"[7..] == "for cats";
    ForCatsKept();
    ForCatsStripped();
  }

  lemma FortniteLower()
    ensures Lower("youtube fortnite") == "youtube fortnite"
  {
  }

  lemma FortniteNoSearch()
    ensures ReplaceAll("youtube fortnite", "search", "") == "youtube fortnite"
  {
    MissingCharNotContained("youtube fortnite", "search", 'h');
    ReplaceAllWithoutMatch("youtube fortnite", "search", "");
  }

  lemma FortniteDropYouTube()
    ensures ReplaceAll("youtube fortnite", "youtube", "") == " fortnite"
  {
    var s := "youtube fortnite";
    assert s[..7] == "youtube" && s[7..] == " fortnite";
    MissingCharNotContained(" fortnite", "youtube", 'y');
    ReplaceAllWithoutMatch(" fortnite", "youtube", "");
  }

  /** A "for" behind a first character that does not start one goes, and nothing else does. */
  lemma DropForBehind(s: string, c: char, rest: string)
    requires s == [c] + ("for" + rest) && c != 'f' && !Contains(rest, "for")
    ensures ReplaceAll(s, "for", "") == [c] + rest
  {
    ReplaceAllWithoutMatch(rest, "for", "");
    ReplaceAllHit("for", rest, "");
    ReplaceAllMiss(c, "for" + rest, "for", "");
  }

  /** A word behind one space, with no "look up" in it, is what remains. */
  lemma SpacedWordStripped(w: string)
    requires w != [] && !IsSpace(w[0]) && !IsSpace(w[|w| - 1]) && !Contains([' '] + w, "look up")
    ensures Strip(ReplaceAll([' '] + w, "look up", "")) == w
  {
    ReplaceAllWithoutMatch([' '] + w, "look up", "");
    assert ([' '] + w)[1..] == w;
    assert TrimStart([' '] + w) == w;
  }

  lemma FortniteDropFor()
    ensures ReplaceAll(" fortnite", "for", "") == " tnite"
  {
    var rest := "tnite";
    assert " fortnite" == [' '] + ("for" + rest);
    assert [' '] + rest == " tnite";
    MissingCharNotContained(rest, "for", 'f');
    DropForBehind(" fortnite", ' ', rest);
  }

  lemma TniteStripped()
    ensures Strip(ReplaceAll(" tnite", "look up", "")) == "tnite"
  {
    var w := "tnite";
    assert " tnite" == [' '] + w;
    MissingCharNotContained([' '] + w, "look up", 'k');
    SpacedWordStripped(w);
  }

  /** Every "for" goes, even inside a word: "youtube fortnite" looks for "tnite". */
  lemma ForInsideAWord()
    ensures YouTubeQuery("youtube fortnite") == "tnite"
  {
    FortniteLower();
    FortniteNoSearch();
    FortniteDropYouTube();
    FortniteDropFor();
    TniteStripped();
  }
}
