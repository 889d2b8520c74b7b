/** The assistant's entry point (run.py): the coarse keyword categoriser, the dispatcher
    `process_command` that routes a category to a handler, and the main loop with its greeting and
    exit test.

    Everything the handlers get from outside (speech recognition, the sentiment and text the
    HuggingFace helper produce, the news service, the screenshot, the YouTube results page, the
    typed confirmation, the installed browsers) arrives in a `Handlers` value. */
module Assistant {
  import opened Common
  import opened NlpLearning
  import opened AIOrchestration
  import AdvancedFeatures
  import WebSearch
  import SystemControls

  // ---------------------------------------------------------------------------------------------
  // get_command_category

  const NewsWords: seq<string> := ["news", "headlines", "latest news"]
  const ScreenshotWords: seq<string> := ["screenshot", "capture", "take a picture", "screen capture"]
  const MediaWords: seq<string> := ["pause", "stop", "next", "previous", "volume", "mute"]
  const VideoWords: seq<string> := ["play video", "watch video", "movie"]
  const CoarseAudioWords: seq<string> := ["play music", "play song", "audio"]
  const SystemWords: seq<string> := ["open", "start", "launch", "close"]
  const InfoWords: seq<string> := ["cpu", "memory", "system"]

  /** The labels `get_command_category` can give. */
  const CoarseCategories: set<string> :=
    {"info_request", "screenshot", "media_control", "video_control", "audio_control", "system_control", "web_search"}

  /** `get_command_category`: the first keyword group found in the lowercased command decides;
      nothing found means a web search. */
  function GetCommandCategory(command: string): (r: string)
    ensures r in CoarseCategories
  {
    var lower := Lower(command);
    if ContainsAny(lower, NewsWords) || Contains(lower, "weather") then "info_request"
    else if ContainsAny(lower, ScreenshotWords) then "screenshot"
    else if ContainsAny(lower, MediaWords) then "media_control"
    else if ContainsAny(lower, VideoWords) then "video_control"
    else if ContainsAny(lower, CoarseAudioWords) then "audio_control"
    else if ContainsAny(lower, SystemWords) then "system_control"
    else if ContainsAny(lower, InfoWords) then "info_request"
    else "web_search"
  }

  /** The priority of the keyword groups, as one statement per label. */
  lemma CategoryPriority(command: string)
    ensures var lower := Lower(command);
            var news := ContainsAny(lower, NewsWords) || Contains(lower, "weather");
            var shot := ContainsAny(lower, ScreenshotWords);
            var media := ContainsAny(lower, MediaWords);
            var video := ContainsAny(lower, VideoWords);
            var audio := ContainsAny(lower, CoarseAudioWords);
            var system := ContainsAny(lower, SystemWords);
            var info := ContainsAny(lower, InfoWords);
            && (GetCommandCategory(command) == "screenshot" <==> !news && shot)
            && (GetCommandCategory(command) == "media_control" <==> !news && !shot && media)
            && (GetCommandCategory(command) == "video_control" <==> !news && !shot && !media && video)
            && (GetCommandCategory(command) == "audio_control" <==> !news && !shot && !media && !video && audio)
            && (GetCommandCategory(command) == "system_control" <==>
                  !news && !shot && !media && !video && !audio && system)
            && (GetCommandCategory(command) == "info_request" <==>
                  news || (!shot && !media && !video && !audio && !system && info))
            && (GetCommandCategory(command) == "web_search" <==>
                  !news && !shot && !media && !video && !audio && !system && !info)
  {
  }

  /** News words beat the media words: "stop the news" is an information request. */
  lemma StopTheNewsIsInfo()
    ensures GetCommandCategory("stop the news") == "info_request"
  {
    var lower := Lower("stop the news");
    assert lower == "stop the news";
    assert OccursAt(lower, "news", 9);
    assert Contains(lower, NewsWords[0]);
  }

  // ---------------------------------------------------------------------------------------------
  // main: greeting and exit test

  /** The greeting for the hour of the day. */
  function Greeting(hour: int): string {
    if 5 <= hour < 12 then "Good morning!"
    else if 12 <= hour < 17 then "Good afternoon!"
    else "Good evening!"
  }

  lemma GreetingByHour(hour: int)
    ensures Greeting(hour) == "Good morning!" <==> 5 <= hour <= 11
    ensures Greeting(hour) == "Good afternoon!" <==> 12 <= hour <= 16
    ensures Greeting(hour) == "Good evening!" <==> hour < 5 || hour >= 17
  {
  }

  const ExitWords: seq<string> := ["exit", "quit", "goodbye", "bye"]

  /** The loop ends when an exit word occurs anywhere in the lowercased command. */
  predicate IsExitCommand(command: string) {
    ContainsAny(Lower(command), ExitWords)
  }

  /** "goodbye" adds nothing, since it contains "bye". */
  lemma ExitWordsReduce(command: string)
    ensures IsExitCommand(command) <==>
              Contains(Lower(command), "exit") || Contains(Lower(command), "quit") || Contains(Lower(command), "bye")
  {
    var lower := Lower(command);
    if Contains(lower, "goodbye") {
      assert OccursAt("goodbye", "bye", 4);
      ContainsTransitive(lower, "goodbye", "bye");
    }
    if Contains(lower, "exit") { assert Contains(lower, ExitWords[0]); }
    if Contains(lower, "quit") { assert Contains(lower, ExitWords[1]); }
    if Contains(lower, "bye") { assert Contains(lower, ExitWords[3]); }
  }

  /** The test is on substrings: "That is QUITE enough" ends the session. */
  lemma QuiteEndsTheSession()
    ensures IsExitCommand("That is QUITE enough")
  {
    var lower := Lower("That is QUITE enough");
    assert lower == "that is quite enough";
    assert OccursAt(lower, "quit", 8);
    assert Contains(lower, ExitWords[1]);
  }

  // ---------------------------------------------------------------------------------------------
  // process_command

  /** What the outside world answers during one command. */
  datatype Handlers = Handlers(
    sentiment: string,            // the helper's sentiment label for the command
    response: string,             // the helper's generated response
    timestamp: string,            // the time the command reaches the review queue
    news: Option<string>,         // what get_news returns (None when it returns nothing)
    heardCity: string,            // what is heard after asking for a city ("" for nothing)
    screenshotOk: bool,           // what take_screenshot returns
    scrape: WebSearch.Scraper,    // the YouTube results page
    confirmation: string,         // the typed confirmation for shutdown or restart
    chromeInstalled: bool,
    firefoxInstalled: bool)

  /** The handler a command reaches, with what it did. */
  datatype Handler =
    | NewsHandler
    | WeatherMissing(city: string)   // get_weather_info is looked up and does not exist
    | SystemInfoHandler
    | SearchHandler(search: WebSearch.SearchOutcome)
    | ControlHandler(action: SystemControls.Action)
    | MediaHandler(presses: seq<string>)
    | ScreenshotHandler
    | NoHandler

  /** The handler reached, the success value, and what `process_command` itself says. */
  datatype Outcome = Outcome(handler: Handler, success: bool, spoken: seq<string>)

  const TryBest: string := "I'll try my best to help you with that."
  const NewsIntro: string := "Getting the latest news..."
  const AskCity: string := "Which city would you like to know the weather for?"
  const DoneReply: string := "Command executed successfully!"
  const Apology: string := "I apologize, but I couldn't complete that task. Would you like to try something else?"
  const ErrorReply: string := "I encountered an error. Please try again."

  /** The categories that have a handler. */
  const RoutedCategories: set<string> :=
    {"info_request", "web_search", "system_control", "media_control", "audio_control", "video_control", "screenshot"}

  const MediaCategories: set<string> := {"media_control", "audio_control", "video_control"}

  predicate MentionsNews(command: string) {
    Contains(Lower(command), "news") || Contains(Lower(command), "headlines")
  }

  /** The category `process_command` works with: news and headlines bypass the classifier. */
  function CategoryFor(dataset: Dataset, model: Classifier, command: string): Option<string> {
    if MentionsNews(command) then Some("info_request") else PredictCategory(dataset, model, command)
  }

  /** The city of a weather request: every "weather" and every "in" removed, then stripped. */
  function WeatherCity(command: string): string {
    Strip(ReplaceAll(ReplaceAll(Lower(command), "weather", ""), "in", ""))
  }

  /** The closing words: the generated response (or a stock line) after a success outside web
      search and information requests, the apology after a failure. */
  function Closing(category: Option<string>, success: bool, response: string): seq<string> {
    if !success then [Apology]
    else if category.Some? && category.value in {"web_search", "info_request"} then []
    else [if response != "" then response else DoneReply]
  }

  /** The information branch. */
  function InfoRequest(command: string, h: Handlers, opening: seq<string>): Outcome {
    var lower := Lower(command);
    var category := Some("info_request");
    if Contains(lower, "news") || Contains(lower, "headlines") then
      var ok := h.news.Some? && h.news.value != "";
      Outcome(NewsHandler, ok, opening + [NewsIntro] + Closing(category, ok, h.response))
    else if Contains(lower, "weather") then
      var city := WeatherCity(command);
      var asked := if city == [] then [AskCity] else [];
      var heard := if city == [] then h.heardCity else city;
      if heard != [] then Outcome(WeatherMissing(heard), false, opening + asked + [ErrorReply])
      else Outcome(NoHandler, false, opening + asked + Closing(category, false, h.response))
    else if ContainsAny(command, InfoWords) then
      Outcome(SystemInfoHandler, true, opening + Closing(category, true, h.response))
    else Outcome(NoHandler, false, opening + Closing(category, false, h.response))
  }

  /** What `process_command` says first: a reassurance when the sentiment is negative. */
  function Opening(sentiment: string): seq<string> {
    if sentiment == "NEGATIVE" then [TryBest] else []
  }

  /** The routing of `process_command` once the category is known, after `opening` was said. */
  function Route(command: string, category: Option<string>, h: Handlers, opening: seq<string>): Outcome {
    if category == Some("info_request") then InfoRequest(command, h, opening)
    else if category == Some("web_search") then
      var search := WebSearch.SearchWeb(command, h.scrape);
      Outcome(SearchHandler(search), search.ok, opening + Closing(category, search.ok, h.response))
    else if category == Some("system_control") then
      var action := SystemControls.ControlSystem(command, h.confirmation, h.chromeInstalled, h.firefoxInstalled);
      Outcome(ControlHandler(action), false, opening + Closing(category, false, h.response))
    else if category.Some? && category.value in MediaCategories then
      var branch := AdvancedFeatures.Branch(command);
      var ok := AdvancedFeatures.Handled(branch);
      Outcome(MediaHandler(AdvancedFeatures.KeysFor(branch)), ok, opening + Closing(category, ok, h.response))
    else if category == Some("screenshot") then
      Outcome(ScreenshotHandler, h.screenshotOk, opening + Closing(category, h.screenshotOk, h.response))
    else Outcome(NoHandler, false, opening + Closing(category, false, h.response))
  }

  /** `process_command` for a known category. */
  function Dispatch(command: string, category: Option<string>, h: Handlers): Outcome {
    Route(command, category, h, Opening(h.sentiment))
  }

  /** The handler choice of `process_command`, step by step: the success flag is assigned by the
      branch taken and decides the closing words. */
  method RouteCommand(command: string, category: Option<string>, h: Handlers, opening: seq<string>)
    returns (outcome: Outcome)
    ensures outcome == Route(command, category, h, opening)
  {
    if category == Some("info_request") {
      return InfoRequest(command, h, opening);
    }
    var handler := NoHandler;
    var success := false;
    if category == Some("web_search") {
      var search := WebSearch.SearchWeb(command, h.scrape);
      handler, success := SearchHandler(search), search.ok;
    } else if category == Some("system_control") {
      handler := ControlHandler(SystemControls.ControlSystem(command, h.confirmation, h.chromeInstalled, h.firefoxInstalled));
    } else if category.Some? && category.value in MediaCategories {
      var presses, handled := AdvancedFeatures.HandleMedia(command);
      handler, success := MediaHandler(presses), handled;
    } else if category == Some("screenshot") {
      handler, success := ScreenshotHandler, h.screenshotOk;
    }
    var spoken := opening;
    if success {
      if !(category.Some? && category.value in {"web_search", "info_request"}) {
        spoken := spoken + [if h.response != "" then h.response else DoneReply];
      }
    } else {
      spoken := spoken + [Apology];
    }
    outcome := Outcome(handler, success, spoken);
  }

  /** A missing category, or one without a handler, runs nothing and ends in the apology. */
  lemma UnroutedCategoryApologises(command: string, category: Option<string>, h: Handlers)
    requires category.None? || category.value !in RoutedCategories
    ensures Dispatch(command, category, h).handler == NoHandler
    ensures !Dispatch(command, category, h).success
    ensures var s := Dispatch(command, category, h).spoken; s != [] && s[|s| - 1] == Apology
  {
  }

  /** `control_system` returns nothing, so a system command never counts as a success, whatever
      it did. */
  lemma SystemControlNeverSucceeds(command: string, h: Handlers)
    ensures var o := Dispatch(command, Some("system_control"), h);
            && !o.success
            && o.handler == ControlHandler(SystemControls.ControlSystem(command, h.confirmation, h.chromeInstalled, h.firefoxInstalled))
            && o.spoken[|o.spoken| - 1] == Apology
  {
  }

  /** A weather request never succeeds: with a city it fails on the missing handler method and
      says the error line; without one it apologises. */
  lemma WeatherNeverSucceeds(command: string, h: Handlers)
    requires !MentionsNews(command) && Contains(Lower(command), "weather")
    ensures var o := Dispatch(command, Some("info_request"), h);
            && !o.success
            && o.spoken[|o.spoken| - 1] == (if WeatherCity(command) != [] || h.heardCity != [] then ErrorReply else Apology)
            && (WeatherCity(command) == [] <==> AskCity in o.spoken)
  {
    assert AskCity !in Opening(h.sentiment);
  }

  /** The media categories go to the media-key handler, whose flag is the success. */
  lemma MediaCategoriesPressKeys(command: string, category: string, h: Handlers)
    requires category in MediaCategories
    ensures var o := Dispatch(command, Some(category), h);
            && o.handler == MediaHandler(AdvancedFeatures.KeysFor(AdvancedFeatures.Branch(command)))
            && (o.success <==> AdvancedFeatures.KeysFor(AdvancedFeatures.Branch(command)) != [])
  {
    var branch := AdvancedFeatures.Branch(command);
    assert AdvancedFeatures.Handled(branch) <==> AdvancedFeatures.KeysFor(branch) != [];
  }

  /** A success is confirmed aloud, with the generated response when there is one, except for
      web searches and information requests. */
  lemma SuccessIsConfirmed(command: string, category: Option<string>, h: Handlers)
    requires Dispatch(command, category, h).success
    ensures var o := Dispatch(command, category, h);
            && (category.Some? && category.value !in {"web_search", "info_request"} ==>
                  o.spoken == Opening(h.sentiment) + [if h.response != "" then h.response else DoneReply])
            && (category.Some? && category.value in {"web_search", "info_request"} ==>
                  o.spoken == Opening(h.sentiment) + (if category.value == "info_request" && MentionsNews(command) then [NewsIntro] else []))
  {
  }

  /** A failed information request ends in the error line when it reached the missing weather
      method and in the apology otherwise. */
  lemma InfoFailureApologises(command: string, h: Handlers, opening: seq<string>)
    requires !InfoRequest(command, h, opening).success
    ensures var o := InfoRequest(command, h, opening);
            o.spoken != [] && o.spoken[|o.spoken| - 1] == (if o.handler.WeatherMissing? then ErrorReply else Apology)
  {
  }

  /** A failure always ends in the apology, except for a weather request that reached the
      missing method, which ends in the error line. */
  lemma FailureApologises(command: string, category: Option<string>, h: Handlers)
    requires !Dispatch(command, category, h).success
    ensures var o := Dispatch(command, category, h);
            o.spoken != [] && o.spoken[|o.spoken| - 1] == (if o.handler.WeatherMissing? then ErrorReply else Apology)
  {
    if category == Some("info_request") {
      InfoFailureApologises(command, h, Opening(h.sentiment));
    }
  }

  /** The window after `process_command`: only classified commands are recorded. */
  function ContextAfterCommand(window: seq<ContextItem>, command: string): seq<ContextItem> {
    if MentionsNews(command) then window else Pushed(window, ContextItem(command, None))
  }

  /** The review queue after `process_command`. */
  function QueueAfterCommand(queue: Dataset, command: string, category: Option<string>, timestamp: string): Dataset {
    if AcceptsCommand(command, category) then Enqueue(queue, CommandRecord(command, category.value, timestamp))
    else queue
  }

  /** `process_command` */
  method ProcessCommand(orch: AIOrchestrator, command: string, h: Handlers) returns (outcome: Outcome)
    requires orch.Valid()
    modifies orch, orch.learner
    ensures orch.Valid()
    ensures var category := CategoryFor(old(orch.learner.dataset), old(orch.learner.model), command);
            && outcome == Dispatch(command, category, h)
            && orch.contextMemory == ContextAfterCommand(old(orch.contextMemory), command)
            && orch.learner.queue == QueueAfterCommand(old(orch.learner.queue), command, category, h.timestamp)
    ensures orch.learner.dataset == old(orch.learner.dataset) && orch.learner.model == old(orch.learner.model)
    ensures orch.resultsCache == old(orch.resultsCache)
  {
    var category: Option<string>;
    if MentionsNews(command) {
      category := Some("info_request");
    } else {
      var analysis := orch.PreprocessCommand(command);
      category := analysis.category;
    }
    var enhanced := orch.EnhanceCommand(command, category, h.sentiment, h.response, h.timestamp);
    var opening: seq<string> := [];
    if enhanced.sentiment == "NEGATIVE" {
      opening := [TryBest];
    }
    outcome := RouteCommand(command, category, h, opening);
  }

  // ---------------------------------------------------------------------------------------------
  // main loop

  /** What the world answers for each utterance, by its position. */
  type World = nat -> Handlers

  /** The utterances from position `i` on that reach `process_command`, with their positions:
      empty ones are skipped, and the first exit command ends the list. */
  function Processed(heard: seq<string>, i: nat): seq<(nat, string)>
    decreases |heard| - i
  {
    if i >= |heard| then []
    else if heard[i] == "" then Processed(heard, i + 1)
    else if IsExitCommand(heard[i]) then []
    else [(i, heard[i])] + Processed(heard, i + 1)
  }

  /** The position of the exit command that ends the session, if one is heard. */
  function ExitAt(heard: seq<string>, i: nat): (r: Option<nat>)
    ensures r.Some? ==> i <= r.value < |heard| && heard[r.value] != "" && IsExitCommand(heard[r.value])
    decreases |heard| - i
  {
    if i >= |heard| then None
    else if heard[i] != "" && IsExitCommand(heard[i]) then Some(i)
    else ExitAt(heard, i + 1)
  }

  function RunContext(window: seq<ContextItem>, steps: seq<(nat, string)>): seq<ContextItem> {
    if steps == [] then window
    else ContextAfterCommand(RunContext(window, steps[..|steps| - 1]), steps[|steps| - 1].1)
  }

  function RunQueue(queue: Dataset, dataset: Dataset, model: Classifier, steps: seq<(nat, string)>,
                    world: World): Dataset {
    if steps == [] then queue
    else
      var (i, command) := steps[|steps| - 1];
      QueueAfterCommand(RunQueue(queue, dataset, model, steps[..|steps| - 1], world), command,
                        CategoryFor(dataset, model, command), world(i).timestamp)
  }

  function RunOutcomes(dataset: Dataset, model: Classifier, steps: seq<(nat, string)>, world: World): (r: seq<Outcome>)
    ensures |r| == |steps|
  {
    if steps == [] then []
    else
      var (i, command) := steps[|steps| - 1];
      RunOutcomes(dataset, model, steps[..|steps| - 1], world)
        + [Dispatch(command, CategoryFor(dataset, model, command), world(i))]
  }

  /** Spoken when the generated farewell is empty, and on a keyboard interrupt. */
  const StockFarewell: string := "Goodbye! Have a great day!"

  /** Spoken by `main`'s outer handler when the program ends with an error. */
  const FatalErrorReply: string := "I encountered a fatal error. Please restart the program."

  function Farewell(response: string): string {
    if response != "" then response else StockFarewell
  }

  /** Every processed utterance is a non-empty, non-exit utterance heard before the exit. */
  lemma {:induction false} ProcessedAreCommandsBeforeExit(heard: seq<string>, i: nat)
    ensures forall k :: 0 <= k < |Processed(heard, i)| ==>
              var (p, c) := Processed(heard, i)[k];
              i <= p < |heard| && c == heard[p] && c != "" && !IsExitCommand(c)
              && (ExitAt(heard, i).Some? ==> p < ExitAt(heard, i).value)
    decreases |heard| - i
  {
    if i < |heard| && heard[i] != "" && !IsExitCommand(heard[i]) {
      ProcessedAreCommandsBeforeExit(heard, i + 1);
      assert ExitAt(heard, i) == ExitAt(heard, i + 1);
    } else if i < |heard| && heard[i] == "" {
      ProcessedAreCommandsBeforeExit(heard, i + 1);
    }
  }

  /** The utterances are processed in the order they are heard. */
  lemma {:induction false} ProcessedInOrder(heard: seq<string>, i: nat)
    ensures forall k, l :: 0 <= k < l < |Processed(heard, i)| ==> Processed(heard, i)[k].0 < Processed(heard, i)[l].0
    decreases |heard| - i
  {
    if i < |heard| && heard[i] != "" && !IsExitCommand(heard[i]) {
      ProcessedInOrder(heard, i + 1);
      ProcessedAreCommandsBeforeExit(heard, i + 1);
      var rest := Processed(heard, i + 1);
      assert Processed(heard, i) == [(i, heard[i])] + rest;
      assert forall l :: 0 <= l < |rest| ==> i < rest[l].0;
    } else if i < |heard| && heard[i] == "" {
      ProcessedInOrder(heard, i + 1);
    }
  }

  /** A non-empty utterance heard at `p`, before any exit, is processed. */
  lemma {:induction false} HeardCommandIsProcessed(heard: seq<string>, i: nat, p: nat)
    requires i <= p < |heard| && heard[p] != "" && !IsExitCommand(heard[p])
    requires ExitAt(heard, i).None? || p < ExitAt(heard, i).value
    ensures (p, heard[p]) in Processed(heard, i)
    decreases p - i
  {
    if p == i {
      assert Processed(heard, i)[0] == (p, heard[p]);
    } else {
      assert ExitAt(heard, i) == ExitAt(heard, i + 1);
      HeardCommandIsProcessed(heard, i + 1, p);
    }
  }

  /** Every non-empty utterance heard before the exit (all of them when none is heard) is
      processed. */
  lemma ProcessedIsComplete(heard: seq<string>)
    ensures forall p: nat :: p < |heard| && heard[p] != "" && !IsExitCommand(heard[p])
                             && (ExitAt(heard, 0).None? || p < ExitAt(heard, 0).value) ==>
              (p, heard[p]) in Processed(heard, 0)
  {
    forall p: nat | p < |heard| && heard[p] != "" && !IsExitCommand(heard[p])
                    && (ExitAt(heard, 0).None? || p < ExitAt(heard, 0).value)
      ensures (p, heard[p]) in Processed(heard, 0)
    {
      HeardCommandIsProcessed(heard, 0, p);
    }
  }

  /** The outcomes, window and queue of a session that has processed `steps`. */
  ghost predicate Session(window: seq<ContextItem>, queue: Dataset, dataset: Dataset, model: Classifier,
                          world: World, steps: seq<(nat, string)>, outcomes: seq<Outcome>,
                          context: seq<ContextItem>, reviewQueue: Dataset) {
    && outcomes == RunOutcomes(dataset, model, steps, world)
    && context == RunContext(window, steps)
    && reviewQueue == RunQueue(queue, dataset, model, steps, world)
  }

  /** One more processed command extends the session's outcomes, window and queue by one step. */
  lemma SessionStep(window: seq<ContextItem>, queue: Dataset, dataset: Dataset, model: Classifier,
                    world: World, steps: seq<(nat, string)>, outcomes: seq<Outcome>,
                    context: seq<ContextItem>, reviewQueue: Dataset, i: nat, command: string)
    requires Session(window, queue, dataset, model, world, steps, outcomes, context, reviewQueue)
    ensures Session(window, queue, dataset, model, world, steps + [(i, command)],
                    outcomes + [Dispatch(command, CategoryFor(dataset, model, command), world(i))],
                    ContextAfterCommand(context, command),
                    QueueAfterCommand(reviewQueue, command, CategoryFor(dataset, model, command), world(i).timestamp))
  {
    assert (steps + [(i, command)])[..|steps|] == steps;
  }

  const Welcome: string := " I'm your AI Assistant. How can I help you today?"

  /** `main`, over a finite list of heard utterances. The source loops with `while True`; a list
      that ends without an exit word stands for a session ended by a keyboard interrupt, which
      leaves the loop with the stock farewell instead of the generated one. The final cleanup
      calls a method that AdvancedFeatures does not have; the outer handler catches the error,
      speaks the fatal-error reply and exits with status 1 before the orchestrator's own cleanup
      runs, so the window is left as the session made it. */
  method RunAssistant(orch: AIOrchestrator, hour: int, heard: seq<string>, world: World)
    returns (greeting: string, outcomes: seq<Outcome>, farewell: string, fatal: string, exitCode: int)
    requires orch.Valid()
    modifies orch, orch.learner
    ensures greeting == Greeting(hour) + Welcome
    ensures var steps := Processed(heard, 0);
            && outcomes == RunOutcomes(old(orch.learner.dataset), old(orch.learner.model), steps, world)
            && orch.contextMemory == RunContext(old(orch.contextMemory), steps)
            && orch.learner.queue == RunQueue(old(orch.learner.queue), old(orch.learner.dataset),
                                              old(orch.learner.model), steps, world)
    ensures orch.learner.dataset == old(orch.learner.dataset) && orch.learner.model == old(orch.learner.model)
    ensures farewell == (match ExitAt(heard, 0) case None => StockFarewell case Some(i) => Farewell(world(i).response))
    ensures fatal == FatalErrorReply && exitCode == 1
  {
    greeting := Greeting(hour) + Welcome;
    ghost var dataset, model := orch.learner.dataset, orch.learner.model;
    ghost var window, queue := orch.contextMemory, orch.learner.queue;
    ghost var steps: seq<(nat, string)> := [];
    outcomes := [];
    var generated: Option<string> := None;
    var i := 0;
    while i < |heard|
      invariant 0 <= i <= |heard|
      invariant orch.Valid()
      invariant steps + Processed(heard, i) == Processed(heard, 0)
      invariant ExitAt(heard, i) == ExitAt(heard, 0)
      invariant generated == None
      invariant orch.learner.dataset == dataset && orch.learner.model == model
      invariant Session(window, queue, dataset, model, world, steps, outcomes, orch.contextMemory, orch.learner.queue)
    {
      var command := heard[i];
      if command == "" {
        i := i + 1;
        continue;
      }
      if IsExitCommand(command) {
        generated := Some(Farewell(world(i).response));
        break;
      }
      SessionStep(window, queue, dataset, model, world, steps, outcomes, orch.contextMemory, orch.learner.queue, i, command);
      var outcome := ProcessCommand(orch, command, world(i));
      outcomes := outcomes + [outcome];
      steps := steps + [(i, command)];
      i := i + 1;
    }
    assert Processed(heard, i) == [];
    assert steps == Processed(heard, 0);
    farewell := if generated.Some? then generated.value else StockFarewell;
    fatal, exitCode := FatalErrorReply, 1;
  }
}
