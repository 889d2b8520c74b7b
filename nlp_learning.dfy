/** The rule-first command classifier and its review queue (class CommandLearner).

    The trained scikit-learn pipeline is an oracle: a `Classifier` gives the arg-max label and its
    probability for a command, and a `Trainer` gives the refitted classifier for a corpus. The
    JSON files behind the dataset and the review queue are in-memory values here. */
module NlpLearning {
  import opened Common

  /** A statistical prediction below this confidence is discarded; one exactly at it is kept. */
  const ConfidenceThreshold: real := 0.3

  /** The closed set of categories the review queue accepts. */
  const ValidCategories: seq<string> := [
    "system_control", "web_search", "system_info", "media_control", "audio_control",
    "video_control", "screenshot", "weather", "news"
  ]

  const TransportWords: seq<string> :=
    ["pause", "stop", "next", "previous", "volume", "mute", "unmute", "louder", "quieter"]
  const VideoExtensions: seq<string> := ["mp4", "avi", "mkv", "mov", "wmv", "flv"]
  const AudioExtensions: seq<string> := ["mp3", "wav", "m4a", "flac", "ogg", "aac"]
  const VideoPhrases: seq<string> :=
    ["play video", "watch video", "play movie", "watch movie", "start video"]
  const AudioPhrases: seq<string> :=
    ["play music", "play song", "play audio", "listen to music", "start music"]
  const AudioWords: seq<string> := ["tune", "melody", "track", "playlist", "listen"]

  datatype CommandRecord = CommandRecord(text: string, category: string, timestamp: string)

  /** The shape of both training-data files: every record in `commands`, and for each category the
      texts of its records in `categories`. */
  datatype Dataset = Dataset(commands: seq<CommandRecord>, categories: map<string, seq<string>>)

  const EmptyDataset: Dataset := Dataset([], map[])

  datatype Prediction = Prediction(category: string, confidence: real)

  /** The fitted pipeline's `predict`/`predict_proba` on one command: the label and the largest
      class probability, or None when the pipeline raises (an unfitted model, for one). */
  type Classifier = string -> Option<Prediction>

  /** `train_test_split` and `fit` on a corpus: the refitted pipeline, or None when they raise. */
  type Trainer = seq<CommandRecord> -> Option<Classifier>

  // ---------------------------------------------------------------------------------------------
  // predict_category

  /** The video rule: a video phrase, "video", "movie" or "film", or "watch"/"view" without
      "news" and "weather". */
  predicate IsVideoRequest(lower: string) {
    || ContainsAny(lower, VideoPhrases)
    || Contains(lower, "video") || Contains(lower, "movie") || Contains(lower, "film")
    || ((Contains(lower, "watch") || Contains(lower, "view"))
        && !ContainsAny(lower, ["news", "weather"]))
  }

  predicate IsAudioRequest(lower: string) {
    || ContainsAny(lower, AudioPhrases)
    || Contains(lower, "music") || Contains(lower, "song") || Contains(lower, "audio")
    || ContainsAny(lower, AudioWords)
  }

  /** The rule layer on the lowercased command: the first rule that matches decides. */
  function RuleCategory(lower: string): Option<string> {
    if ContainsAny(lower, TransportWords) then Some("media_control")
    else if ContainsAny(lower, VideoExtensions) then Some("video_control")
    else if ContainsAny(lower, AudioExtensions) then Some("audio_control")
    else if IsVideoRequest(lower) then Some("video_control")
    else if IsAudioRequest(lower) then Some("audio_control")
    else None
  }

  /** The confidence gate on the classifier's answer. */
  function Gate(p: Option<Prediction>): Option<string> {
    match p
    case None => None
    case Some(prediction) =>
      if prediction.confidence < ConfidenceThreshold then None else Some(prediction.category)
  }

  /** `predict_category`: None without training data, else the rule layer, else the gated
      classifier. */
  function PredictCategory(data: Dataset, model: Classifier, command: string): (r: Option<string>)
    ensures data.commands == [] ==> r == None
    ensures r.Some? ==> r.value in {"media_control", "video_control", "audio_control"}
                        || (model(command).Some? && r.value == model(command).value.category)
  {
    if data.commands == [] then None
    else
      var rule := RuleCategory(Lower(command));
      if rule.Some? then rule else Gate(model(command))
  }

  /** When a rule matches, the classifier is not consulted: any two classifiers agree. */
  lemma RulesOverrideClassifier(data: Dataset, m1: Classifier, m2: Classifier, command: string)
    requires data.commands != [] && RuleCategory(Lower(command)).Some?
    ensures PredictCategory(data, m1, command) == PredictCategory(data, m2, command)
    ensures PredictCategory(data, m1, command) == RuleCategory(Lower(command))
  {
  }

  /** The priority of the five rules, as a characterisation of each outcome. */
  lemma RulePriority(lower: string)
    ensures RuleCategory(lower) == Some("media_control") <==> ContainsAny(lower, TransportWords)
    ensures RuleCategory(lower) == Some("video_control") <==>
              !ContainsAny(lower, TransportWords)
              && (ContainsAny(lower, VideoExtensions)
                  || (!ContainsAny(lower, AudioExtensions) && IsVideoRequest(lower)))
    ensures RuleCategory(lower) == Some("audio_control") <==>
              !ContainsAny(lower, TransportWords) && !ContainsAny(lower, VideoExtensions)
              && (ContainsAny(lower, AudioExtensions)
                  || (!IsVideoRequest(lower) && IsAudioRequest(lower)))
    ensures RuleCategory(lower) == None <==>
              !ContainsAny(lower, TransportWords) && !ContainsAny(lower, VideoExtensions)
              && !ContainsAny(lower, AudioExtensions) && !IsVideoRequest(lower)
              && !IsAudioRequest(lower)
  {
  }

  /** Each video phrase contains "video" or "movie", so the phrase list adds nothing, and
      "watch"/"view" count only without "news" and "weather". */
  lemma VideoRuleIsKeywords(lower: string)
    ensures IsVideoRequest(lower) <==>
              || Contains(lower, "video") || Contains(lower, "movie") || Contains(lower, "film")
              || ((Contains(lower, "watch") || Contains(lower, "view"))
                  && !Contains(lower, "news") && !Contains(lower, "weather"))
  {
    if ContainsAny(lower, VideoPhrases) {
      VideoPhraseHasKeyword(lower);
    }
    NewsOrWeather(lower);
  }

  lemma VideoPhraseHasKeyword(lower: string)
    requires ContainsAny(lower, VideoPhrases)
    ensures Contains(lower, "video") || Contains(lower, "movie")
  {
    var k :| 0 <= k < |VideoPhrases| && Contains(lower, VideoPhrases[k]);
    var phrase := VideoPhrases[k];
    if k == 0 {
      assert phrase == "play video" && phrase[5..10] == "video";
      ContainsSlice(lower, phrase, 5, 10);
    } else if k == 1 {
      assert phrase == "watch video" && phrase[6..11] == "video";
      ContainsSlice(lower, phrase, 6, 11);
    } else if k == 2 {
      assert phrase == "play movie" && phrase[5..10] == "movie";
      ContainsSlice(lower, phrase, 5, 10);
    } else if k == 3 {
      assert phrase == "watch movie" && phrase[6..11] == "movie";
      ContainsSlice(lower, phrase, 6, 11);
    } else {
      assert phrase == "start video" && phrase[6..11] == "video";
      ContainsSlice(lower, phrase, 6, 11);
    }
  }

  lemma NewsOrWeather(lower: string)
    ensures ContainsAny(lower, ["news", "weather"]) <==> Contains(lower, "news") || Contains(lower, "weather")
  {
    var excluded: seq<string> := ["news", "weather"];
    if Contains(lower, "news") { assert Contains(lower, excluded[0]); }
    if Contains(lower, "weather") { assert Contains(lower, excluded[1]); }
  }

  /** The audio phrases add nothing to the audio keywords either. */
  lemma AudioRuleIsKeywords(lower: string)
    ensures IsAudioRequest(lower) <==>
              Contains(lower, "music") || Contains(lower, "song") || Contains(lower, "audio")
              || ContainsAny(lower, AudioWords)
  {
    if ContainsAny(lower, AudioPhrases) {
      AudioPhraseHasKeyword(lower);
    }
  }

  lemma AudioPhraseHasKeyword(lower: string)
    requires ContainsAny(lower, AudioPhrases)
    ensures Contains(lower, "music") || Contains(lower, "song") || Contains(lower, "audio")
  {
    var k :| 0 <= k < |AudioPhrases| && Contains(lower, AudioPhrases[k]);
    var phrase := AudioPhrases[k];
    if k == 0 {
      assert phrase == "play music" && phrase[5..10] == "music";
      ContainsSlice(lower, phrase, 5, 10);
    } else if k == 1 {
      assert phrase == "play song" && phrase[5..9] == "song";
      ContainsSlice(lower, phrase, 5, 9);
    } else if k == 2 {
      assert phrase == "play audio" && phrase[5..10] == "audio";
      ContainsSlice(lower, phrase, 5, 10);
    } else if k == 3 {
      assert phrase == "listen to music" && phrase[10..15] == "music";
      ContainsSlice(lower, phrase, 10, 15);
    } else {
      assert phrase == "start music" && phrase[6..11] == "music";
      ContainsSlice(lower, phrase, 6, 11);
    }
  }

  /** Transport words beat file extensions: "pause song.mp3" is a media command. */
  lemma PauseSongIsMediaControl(data: Dataset, model: Classifier)
    requires data.commands != []
    ensures PredictCategory(data, model, "pause song.mp3") == Some("media_control")
  {
    var lower := Lower("pause song.mp3");
    assert lower[0..5] == "pause";
    assert Contains(lower, TransportWords[0]) by { assert OccursAt(lower, "pause", 0); }
  }

  /** After the rules, the classifier's label is kept exactly when its confidence reaches 0.3. */
  lemma ThresholdGate(data: Dataset, model: Classifier, command: string)
    requires data.commands != [] && RuleCategory(Lower(command)) == None
    ensures model(command).None? ==> PredictCategory(data, model, command) == None
    ensures model(command).Some? ==>
              (PredictCategory(data, model, command) == Some(model(command).value.category)
               <==> model(command).value.confidence >= 0.3)
    ensures model(command).Some? ==>
              (PredictCategory(data, model, command) == None
               <==> model(command).value.confidence < 0.3)
  {
  }

  // ---------------------------------------------------------------------------------------------
  // The two-index dataset and its consistency

  /** The texts of the records of `category`, in record order. */
  function TextsOf(commands: seq<CommandRecord>, category: string): seq<string> {
    if commands == [] then []
    else
      var last := commands[|commands| - 1];
      TextsOf(commands[..|commands| - 1], category) + (if last.category == category then [last.text] else [])
  }

  function CategoryTexts(categories: map<string, seq<string>>, category: string): seq<string> {
    if category in categories then categories[category] else []
  }

  /** The two indices agree: every record's category has a list, and each list holds exactly the
      texts of that category's records, in order. */
  ghost predicate Consistent(d: Dataset) {
    && (forall i :: 0 <= i < |d.commands| ==> d.commands[i].category in d.categories)
    && (forall c :: c in d.categories ==> d.categories[c] == TextsOf(d.commands, c))
  }

  lemma {:induction false} TextsOfAppend(a: seq<CommandRecord>, b: seq<CommandRecord>, category: string)
    ensures TextsOf(a + b, category) == TextsOf(a, category) + TextsOf(b, category)
    decreases |b|
  {
    if b != [] {
      var b' := b[..|b| - 1];
      assert (a + b)[..|a + b| - 1] == a + b';
      TextsOfAppend(a, b', category);
    } else {
      assert a + b == a;
    }
  }

  lemma {:induction false} TextsOfAbsent(commands: seq<CommandRecord>, category: string)
    requires forall i :: 0 <= i < |commands| ==> commands[i].category != category
    ensures TextsOf(commands, category) == []
    decreases |commands|
  {
    if commands != [] {
      TextsOfAbsent(commands[..|commands| - 1], category);
    }
  }

  /** The record `add_command` appends, with both indices updated. */
  function Enqueue(q: Dataset, r: CommandRecord): Dataset {
    Dataset(q.commands + [r], q.categories[r.category := CategoryTexts(q.categories, r.category) + [r.text]])
  }

  /** Enqueueing appends exactly one record and one text, leaves the other categories alone and
      keeps the two indices consistent. */
  lemma EnqueueSpec(q: Dataset, r: CommandRecord)
    ensures Enqueue(q, r).commands == q.commands + [r]
    ensures Enqueue(q, r).categories.Keys == q.categories.Keys + {r.category}
    ensures CategoryTexts(Enqueue(q, r).categories, r.category) == CategoryTexts(q.categories, r.category) + [r.text]
    ensures forall c :: c != r.category ==> CategoryTexts(Enqueue(q, r).categories, c) == CategoryTexts(q.categories, c)
    ensures Consistent(q) ==> Consistent(Enqueue(q, r))
  {
    var q' := Enqueue(q, r);
    if Consistent(q) {
      assert q'.commands[..|q'.commands| - 1] == q.commands;
      if r.category !in q.categories {
        TextsOfAbsent(q.commands, r.category);
      }
    }
  }

  function MergeCategories(d: map<string, seq<string>>, q: map<string, seq<string>>): map<string, seq<string>> {
    map c | c in d.Keys + q.Keys :: CategoryTexts(d, c) + CategoryTexts(q, c)
  }

  lemma MergeNothing(d: map<string, seq<string>>)
    ensures MergeCategories(d, map[]) == d
  {
    var m := MergeCategories(d, map[]);
    assert m.Keys == d.Keys;
    forall c | c in d
      ensures m[c] == d[c]
    {
      assert CategoryTexts(map[], c) == [];
    }
  }

  /** Merging one more category of the queue extends that category's list and nothing else. */
  lemma MergeStep(d: map<string, seq<string>>, q: map<string, seq<string>>, pending: set<string>, c: string)
    requires c in pending && pending <= q.Keys
    ensures var before := MergeCategories(d, q - pending);
            MergeCategories(d, q - (pending - {c})) == before[c := CategoryTexts(before, c) + q[c]]
  {
    var before := MergeCategories(d, q - pending);
    var after := MergeCategories(d, q - (pending - {c}));
    assert CategoryTexts(q - pending, c) == [];
    assert CategoryTexts(q - (pending - {c}), c) == q[c];
    forall k | k in after && k != c
      ensures after[k] == before[k]
    {
      assert CategoryTexts(q - (pending - {c}), k) == CategoryTexts(q - pending, k);
    }
    assert CategoryTexts(before, c) == CategoryTexts(d, c);
    assert after[c] == CategoryTexts(d, c) + q[c];
    assert after.Keys == before.Keys + {c};
    assert after == before[c := CategoryTexts(before, c) + q[c]];
  }

  /** `update_model`'s merge: the queue's records after the dataset's, and every category list
      extended by the queue's list. */
  function Merge(d: Dataset, q: Dataset): Dataset {
    Dataset(d.commands + q.commands, MergeCategories(d.categories, q.categories))
  }

  lemma MergeKeepsConsistent(d: Dataset, q: Dataset)
    requires Consistent(d) && Consistent(q)
    ensures Consistent(Merge(d, q))
  {
    var m := Merge(d, q);
    forall c | c in m.categories
      ensures m.categories[c] == TextsOf(m.commands, c)
    {
      TextsOfAppend(d.commands, q.commands, c);
      if c !in d.categories {
        TextsOfAbsent(d.commands, c);
      }
      if c !in q.categories {
        TextsOfAbsent(q.commands, c);
      }
    }
  }

  /** Merging is not idempotent: promoting the same queue twice duplicates its records. */
  lemma MergeTwiceDuplicates(d: Dataset, q: Dataset)
    requires q.commands != []
    ensures Merge(Merge(d, q), q).commands == d.commands + q.commands + q.commands
    ensures Merge(Merge(d, q), q) != Merge(d, q)
  {
    assert |Merge(Merge(d, q), q).commands| > |Merge(d, q).commands|;
  }

  /** `add_command`'s validation: a non-empty command and a category in the closed set. */
  predicate AcceptsCommand(command: string, category: Option<string>) {
    command != [] && category.Some? && category.value != [] && category.value in ValidCategories
  }

  // ---------------------------------------------------------------------------------------------
  // get_command_suggestions

  function Texts(commands: seq<CommandRecord>): (r: seq<string>)
    ensures |r| == |commands| && forall i :: 0 <= i < |commands| ==> r[i] == commands[i].text
  {
    seq(|commands|, i requires 0 <= i < |commands| => commands[i].text)
  }

  /** The texts whose lowercase form contains `lowerPartial`, in their original order. */
  function Matching(texts: seq<string>, lowerPartial: string): seq<string> {
    if texts == [] then []
    else
      var last := texts[|texts| - 1];
      Matching(texts[..|texts| - 1], lowerPartial) + (if Contains(Lower(last), lowerPartial) then [last] else [])
  }

  function Take(s: seq<string>, n: nat): (r: seq<string>)
    ensures |r| <= n && |r| <= |s| && r == s[..|r|]
    ensures |s| <= n ==> r == s
  {
    if |s| <= n then s else s[..n]
  }

  /** `Matching` keeps exactly the texts that contain the partial input. */
  lemma {:induction false} MatchingMembers(texts: seq<string>, lowerPartial: string, t: string)
    ensures t in Matching(texts, lowerPartial) <==> t in texts && Contains(Lower(t), lowerPartial)
    decreases |texts|
  {
    if texts != [] {
      var init := texts[..|texts| - 1];
      MatchingMembers(init, lowerPartial, t);
      assert texts == init + [texts[|texts| - 1]];
    }
  }

  // ---------------------------------------------------------------------------------------------
  // The learner's state

  class CommandLearner {
    /** command_dataset: the verified corpus. */
    var dataset: Dataset
    /** new_commands: the review queue. */
    var queue: Dataset
    var model: Classifier

    constructor (dataset: Dataset, queue: Dataset, model: Classifier)
      ensures this.dataset == dataset && this.queue == queue && this.model == model
    {
      this.dataset := dataset;
      this.queue := queue;
      this.model := model;
    }

    /** `add_command`: validate, then append one timestamped record to the review queue. */
    method AddCommand(command: string, category: Option<string>, timestamp: string) returns (ok: bool)
      modifies this
      ensures ok == AcceptsCommand(command, category)
      ensures queue == if ok then Enqueue(old(queue), CommandRecord(command, category.value, timestamp)) else old(queue)
      ensures dataset == old(dataset) && model == old(model)
    {
      if command == [] || category.None? || category.value == [] {
        return false;
      }
      if category.value !in ValidCategories {
        return false;
      }
      var c := category.value;
      var texts := if c in queue.categories then queue.categories[c] else [];
      queue := Dataset(queue.commands + [CommandRecord(command, c, timestamp)], queue.categories[c := texts + [command]]);
      ok := true;
    }

    /** `train_model`: nothing to fit on an empty corpus; otherwise the refitted pipeline replaces
        the model when fitting succeeds. */
    method TrainModel(trainer: Trainer) returns (ok: bool)
      modifies this`model
      ensures ok == (dataset.commands != [] && trainer(dataset.commands).Some?)
      ensures model == if ok then trainer(dataset.commands).value else old(model)
    {
      if dataset.commands == [] {
        return false;
      }
      var fitted := trainer(dataset.commands);
      if fitted.None? {
        return false;
      }
      model := fitted.value;
      ok := true;
    }

    /** `update_model`: merge the queue into the dataset, save it, retrain and clear the queue.
        A failed save (`saveOk` false) leaves the merged dataset in memory and the queue as it
        was; the result of retraining does not affect the answer. */
    method UpdateModel(saveOk: bool, trainer: Trainer) returns (ok: bool)
      modifies this
      ensures old(queue).commands == [] ==>
                !ok && dataset == old(dataset) && queue == old(queue) && model == old(model)
      ensures old(queue).commands != [] ==> ok == saveOk && dataset == Merge(old(dataset), old(queue))
      ensures queue == if ok then EmptyDataset else old(queue)
      ensures model == if ok && trainer(dataset.commands).Some? then trainer(dataset.commands).value else old(model)
    {
      if queue.commands == [] {
        return false;
      }
      ghost var d0 := dataset;
      dataset := dataset.(commands := dataset.commands + queue.commands);
      var pending := queue.categories.Keys;
      assert queue.categories - pending == map[];
      MergeNothing(d0.categories);
      while pending != {}
        invariant pending <= queue.categories.Keys
        invariant queue == old(queue) && model == old(model)
        invariant dataset.commands == d0.commands + queue.commands
        invariant dataset.categories == MergeCategories(d0.categories, queue.categories - pending)
        decreases pending
      {
        var c :| c in pending;
        MergeStep(d0.categories, queue.categories, pending, c);
        var texts := if c in dataset.categories then dataset.categories[c] else [];
        dataset := dataset.(categories := dataset.categories[c := texts + queue.categories[c]]);
        pending := pending - {c};
      }
      assert queue.categories - {} == queue.categories;
      if !saveOk {
        return false;
      }
      var trained := TrainModel(trainer);
      queue := EmptyDataset;
      ok := true;
    }

    /** `get_command_suggestions`: at most five dataset texts containing the partial input,
        ignoring case, in dataset order. */
    method GetCommandSuggestions(partial: string) returns (suggestions: seq<string>)
      ensures suggestions == Take(Matching(Texts(dataset.commands), Lower(partial)), 5)
    {
      if dataset.commands == [] {
        return [];
      }
      var allCommands := Texts(dataset.commands);
      var lowerPartial := Lower(partial);
      var found: seq<string> := [];
      var i := 0;
      while i < |allCommands|
        invariant 0 <= i <= |allCommands|
        invariant found == Matching(allCommands[..i], lowerPartial)
      {
        var commandLower := Lower(allCommands[i]);
        assert allCommands[..i + 1][..i] == allCommands[..i];
        if StartsWith(commandLower, lowerPartial) {
          StartsWithContains(commandLower, lowerPartial);
          found := found + [allCommands[i]];
        } else if Contains(commandLower, lowerPartial) {
          found := found + [allCommands[i]];
        }
        i := i + 1;
      }
      assert allCommands[..i] == allCommands;
      suggestions := Take(found, 5);
    }
  }
}
