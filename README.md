# Zenith voice assistant: command routing in Dafny

This project is a Dafny model of the deterministic core of the Zenith desktop voice assistant.
The core turns an utterance into a category or an action, and it keeps three pieces of state:

- `NlpLearning` (assistant/modules/nlp_learning.py): the rule-first classifier `predict_category`,
  with its substring rules checked before a confidence-gated statistical prediction. It also covers
  the review queue of `CommandLearner`: `add_command`, `train_model`, `update_model` and
  `get_command_suggestions`. The trained scikit-learn pipeline is an oracle giving a label and a
  confidence. A trainer oracle gives the refitted pipeline.
- `AIOrchestration` (assistant/modules/ai_orchestrator.py): the five-item conversation window. It
  covers what `preprocess_command`, `answer_question`, `enhance_command` and `cleanup` do to the
  window, and `get_context`'s formatting.
- `AdvancedFeatures` (assistant/modules/advanced_features.py): `handle_media`, which turns a command
  into a sequence of media-key presses and a success flag.
- `WebSearch` (assistant/modules/web_search.py): `extract_video_index`, the query cleaning before a
  YouTube results URL, and `search_web`'s YouTube, Google and default branches. The page opened is
  the output.
- `SystemControls` (assistant/modules/system_controls.py): `control_system`'s decision chain. The
  emitted program launch, browser page or shell command is the output.
- `Assistant` (run.py): the coarse categoriser `get_command_category` and the dispatcher
  `process_command`. It also covers the greeting choice, the exit test and the main loop of `main`.
- `EnvFile` (setup_api_keys.py): reading `.env`, the per-key update rule, writing `.env` back, and
  the masks shown.
- `LoadEnv` (load_env.py): loading `.env` into the process environment, the missing-file result,
  and the masks printed.
- `Common`: the Python string operations the modules share, written out over `seq<char>`.
  These are `lower`, `in`, `startswith`, `strip`, `replace` and `"\n".join`.

Objects the source updates in place are classes:

- the review queue and dataset of `CommandLearner`;
- the window of `AIOrchestrator`;
- the process environment `os.environ`.

The routing logic is functions, and each loop of the source that updates state is a method proved against them. The pure scans (the number-word lookup of `extract_video_index`, the `any(...)` tests and the context formatting) are recursive functions.
Everything that comes from outside is a parameter:

- what is heard;
- the hour;
- typed answers;
- the helper's sentiment and response;
- the news service and screenshot results;
- the YouTube results page;
- which browsers are installed;
- whether a file exists and its text.

Where the code differs from the assistant's own description, the model follows the code:

- `process_command` never calls `get_command_category`. Its category comes from the learner's
  `predict_category`, or is `info_request` when "news" or "headlines" occurs.
- `process_command` has no fallback to the coarse categoriser. A category without a handler ends in
  the apology.
- Weather requests call `advanced_features.get_weather_info`, which `AdvancedFeatures` does not
  define. The attribute error ends in `process_command`'s error reply, so a weather request never
  succeeds.
- `control_system` returns nothing on every path, so the system-control route always apologises.
- The weather city is the command with every "in" removed, as well as "weather": "berlin" becomes
  "berl".
- When `main` leaves its loop, the `finally` block calls `advanced_features.cleanup()`, which does
  not exist. The outer handler then says "I encountered a fatal error. Please restart the
  program." and exits with status 1, so every session ends this way, and the orchestrator's
  `cleanup` never runs.
- `update_model` clears the queue and returns True even when retraining fails. When saving the
  dataset fails, the merged dataset stays in memory and the queue is kept, so a retry merges the
  same commands again.
- There is no media player, playlist or playback session code. `handle_media` only presses the
  operating system's media keys.

## Model

| member | source | states |
|---|---|---|
| NlpLearning.PredictCategory | assistant/modules/nlp_learning.py:225-289 | With an empty dataset the answer is None for every command. Any label returned is a media, video or audio rule label, or the classifier's own label for that command. |
| NlpLearning.RulesOverrideClassifier | assistant/modules/nlp_learning.py:236-269 | With a non-empty dataset, if a substring rule fires, any two classifiers give the same answer, and that answer is the rule's category. |
| NlpLearning.RulePriority | assistant/modules/nlp_learning.py:237-269 | For each answer of the rule chain, an iff over the lowercased text. media_control comes exactly from a transport word. Then video extensions, audio extensions, the video request and the audio request decide, in that order. No rule fires exactly when none of the five matches. |
| NlpLearning.VideoRuleIsKeywords | assistant/modules/nlp_learning.py:257-262 | The video rule holds iff "video", "movie" or "film" occurs, or "watch" or "view" occurs with neither "news" nor "weather". The listed video phrases add nothing. |
| NlpLearning.VideoPhraseHasKeyword | assistant/modules/nlp_learning.py:257-258 | Every listed video phrase contains "video" or "movie". |
| NlpLearning.AudioRuleIsKeywords | assistant/modules/nlp_learning.py:265-269 | The audio rule holds iff "music", "song" or "audio" occurs, or one of tune, melody, track, playlist or listen occurs. |
| NlpLearning.AudioPhraseHasKeyword | assistant/modules/nlp_learning.py:265 | Every listed audio phrase contains "music", "song" or "audio". |
| NlpLearning.PauseSongIsMediaControl | assistant/modules/nlp_learning.py:240-253 | With a non-empty dataset, "pause song.mp3" is media_control: the transport word beats the audio extension. |
| NlpLearning.ThresholdGate | assistant/modules/nlp_learning.py:272-289 | When no rule fires, the answer is the classifier's label iff its confidence is at least 0.3, so exactly 0.3 is kept. The answer is None iff the confidence is below 0.3, and None when the pipeline raises. |
| NlpLearning.EnqueueSpec | assistant/modules/nlp_learning.py:177-185 | Queuing a record appends exactly that record to `commands`. It appends its text to its category's list, creating the category if needed. Other categories are unchanged, and consistency between `commands` and `categories` is kept. |
| NlpLearning.MergeStep | assistant/modules/nlp_learning.py:355-358 | One pass of the category loop extends that category's list, created empty if absent, by the queue's list. All other categories are as before. |
| NlpLearning.MergeKeepsConsistent | assistant/modules/nlp_learning.py:352-358 | Merging a consistent queue into a consistent dataset gives a consistent dataset: each category's list is the texts of its records, in order. |
| NlpLearning.MergeTwiceDuplicates | assistant/modules/nlp_learning.py:352-374 | Promoting the same non-empty queue twice, as a retry after a failed save does, duplicates its commands. The result differs from promoting it once. |
| NlpLearning.MatchingMembers | assistant/modules/nlp_learning.py:329-334 | A text is kept by the suggestion filter iff it is in the dataset and its lowercase form contains the lowercased partial input. |
| NlpLearning.CommandLearner.AddCommand | assistant/modules/nlp_learning.py:160-194 | Succeeds iff the command is non-empty and the category is one of the nine valid ones. On success the queue gains exactly the timestamped record. On failure the queue is unchanged. The dataset and model are never touched. |
| NlpLearning.CommandLearner.TrainModel | assistant/modules/nlp_learning.py:196-223 | Fails on an empty dataset and when fitting raises. Otherwise the refitted pipeline replaces the model. |
| NlpLearning.CommandLearner.UpdateModel | assistant/modules/nlp_learning.py:341-374 | An empty queue returns False and changes nothing. Otherwise the dataset becomes the merge of dataset and queue, and the result is whether the save succeeded. On success the queue is cleared and True returned even if retraining fails. The model changes only when retraining succeeds. |
| NlpLearning.CommandLearner.GetCommandSuggestions | assistant/modules/nlp_learning.py:317-339 | The first five dataset texts, in dataset order, whose lowercase form contains the lowercased partial input. The prefix branch adds nothing, and an empty dataset gives no suggestion. |
| AIOrchestration.PushedKeepsLastFive | assistant/modules/ai_orchestrator.py:59-63 | Adding to a window of at most five items keeps at most five. The new item is last. A full window loses exactly its oldest item, and a shorter one just grows. The result is the last five of the window followed by the item. |
| AIOrchestration.AfterAddsKeepsLastFive | assistant/modules/ai_orchestrator.py:59-63 | After any sequence of additions, the window holds the last five items of everything added. |
| AIOrchestration.LastFiveThenPush | assistant/modules/ai_orchestrator.py:59-63 | Adding to the last five of a history gives the last five of the extended history. |
| AIOrchestration.FormatContextAppend | assistant/modules/ai_orchestrator.py:65-70 | An empty window formats as "". One item formats as its own "User: u\nAssistant: a" block. Adding an item appends "\n" and its block. |
| AIOrchestration.FormatEndsWithLast | assistant/modules/ai_orchestrator.py:65-70 | The formatted context ends with the block of the window's last item. |
| AIOrchestration.PreprocessedContextEndsWithCommand | assistant/modules/ai_orchestrator.py:82-88 | After the command is added with no answer, the formatted context ends with "User: <command>\nAssistant: None". |
| AIOrchestration.AIOrchestrator.constructor | assistant/modules/ai_orchestrator.py:13-29 | A new orchestrator has an empty window and an empty results cache. |
| AIOrchestration.AIOrchestrator.AddToContext | assistant/modules/ai_orchestrator.py:59-63 | The window becomes the old window with the item pushed, and stays within five items. |
| AIOrchestration.AIOrchestrator.PreprocessCommand | assistant/modules/ai_orchestrator.py:72-89 | Pushes the command with no answer. Returns the command, the learner's `predict_category` answer, and the new window's context, which ends with that command. |
| AIOrchestration.AIOrchestrator.AnswerQuestion | assistant/modules/ai_orchestrator.py:103-113 | The helper is asked with the given context, or with the current window's context when none or "" is given. The question and its answer are then pushed. |
| AIOrchestration.AIOrchestrator.EnhanceCommand | assistant/modules/ai_orchestrator.py:115-132 | Forwards command and category to `add_command` on every call: the queue gains the record iff it validates. The window is unchanged, and the result pairs the sentiment and response with the current context. |
| AIOrchestration.AIOrchestrator.Cleanup | assistant/modules/ai_orchestrator.py:134-146 | Leaves the window and the results cache empty. |
| AdvancedFeatures.HandleMedia | assistant/modules/advanced_features.py:13-49 | The presses are the keys of the branch chosen, in order. The result is True iff the command was neither left to YouTube nor unrecognised, which is iff some key was pressed. |
| AdvancedFeatures.BranchPriority | assistant/modules/advanced_features.py:13-45 | The branch is the first of "youtube" (in any case), play or pause, next, previous, volume up, volume down and mute whose words occur. Only the YouTube test ignores case. Otherwise the command is unrecognised. |
| AdvancedFeatures.YouTubeIsLeftAlone | assistant/modules/advanced_features.py:16-18 | "youtube" in any case presses nothing and returns False. |
| AdvancedFeatures.VolumeCommandsPressFiveTimes | assistant/modules/advanced_features.py:30-37 | Volume up presses `volumeup` exactly five times, and volume down `volumedown` five times. Every other branch presses at most one key. |
| AdvancedFeatures.PlayNextToggles | assistant/modules/advanced_features.py:21-26 | "play" is tested before "next": "play next" presses only `playpause`. |
| AdvancedFeatures.UnmuteMutes | assistant/modules/advanced_features.py:38-40 | A command with "unmute" that no earlier branch takes presses `volumemute`. |
| AdvancedFeatures.UpperCaseIsUnrecognised | assistant/modules/advanced_features.py:21-43 | The tests other than YouTube are case-sensitive: "PAUSE" is unrecognised. |
| WebSearch.FirstWordDecides | assistant/modules/web_search.py:51-53 | Scanning the word table, the first word that occurs decides the index. |
| WebSearch.NoWordNoIndex | assistant/modules/web_search.py:51-53 | When no table word occurs, the scan finds nothing. |
| WebSearch.TableWordDecides | assistant/modules/web_search.py:38-53 | The index is that of the first ordinal or number word of the table, in insertion order, occurring in the lowercased command. |
| WebSearch.NumberOrDefault | assistant/modules/web_search.py:55-60 | With no table word, the index is the first digit run minus one, and 0 when there is no digit. |
| WebSearch.ExtractVideoIndex | assistant/modules/web_search.py:36-60 | The index is never below -1. |
| WebSearch.SecondOneIsSecond | assistant/modules/web_search.py:41-53 | "second one" gives 1: "second" precedes "one" in the table. |
| WebSearch.ZeroIsMinusOne | assistant/modules/web_search.py:55-58 | "0" gives -1. |
| WebSearch.CleanQueryShape | assistant/modules/web_search.py:11-12 | A cleaned query holds only word characters and "+", never two "+" in a row. |
| WebSearch.DropPunctuationKeepsWords | assistant/modules/web_search.py:11 | Removing the characters that are neither word characters nor whitespace keeps every word character, in order. |
| WebSearch.PlusForSpacesContent | assistant/modules/web_search.py:12 | On text of word characters and whitespace, deleting the "+" from the result gives back the word characters in order. There is exactly one "+" per maximal whitespace run. |
| WebSearch.CleanQueryContent | assistant/modules/web_search.py:11-12 | Deleting the "+" from the cleaned query gives exactly the query's word characters, in order. The cleaned query has one "+" per whitespace run left after punctuation is removed. |
| WebSearch.SearchFailsOnlyOnEmptyQuery | assistant/modules/web_search.py:62-120 | A page is opened iff the search succeeds. It fails iff the YouTube query is empty while "youtube" occurs, or the Google query is empty while only "google" occurs. |
| WebSearch.YouTubeBeatsGoogle | assistant/modules/web_search.py:66-99 | Any command with "youtube", in any case, opens a YouTube page even if it also names Google. |
| WebSearch.PlayOnYouTubeAlwaysOpens | assistant/modules/web_search.py:77-93 | With a non-empty query and "play" or "watch", the search succeeds. It opens the scraped video at the extracted index when there is one, and the results page otherwise. |
| WebSearch.PickResultMeaning | assistant/modules/web_search.py:28-34 | The chosen link is the one at the index, counted from the end when the index is negative. Nothing is chosen beyond either end. A chosen link without `href` raises KeyError, which gives nothing. |
| WebSearch.GoogleQueryAfterLastGoogle | assistant/modules/web_search.py:104 | On a one-line command, the Google query is the stripped text after the last case-sensitive "google". |
| WebSearch.CapitalGoogleIsKept | assistant/modules/web_search.py:102-111 | When only a capitalised "Google" occurs, the pattern removes nothing. The whole stripped command is searched, and the search fails iff that is empty. |
| WebSearch.DefaultSearchAlwaysOpens | assistant/modules/web_search.py:114-120 | Without "youtube" or "google" the search always succeeds and opens Google with the default query. |
| WebSearch.SearchForCats | assistant/modules/web_search.py:116 | The default query of "search for cats" is "for cats". |
| WebSearch.ForInsideAWord | assistant/modules/web_search.py:70 | The YouTube query removes "for" inside words: "youtube fortnite" searches "tnite". |
| SystemControls.BranchPriority | assistant/modules/system_controls.py:8-62 | The branch is the first of notepad, calculator, chrome, firefox, shutdown or turn off, and restart whose word occurs in the lowercased command. Otherwise no branch is taken. |
| SystemControls.CancelShutdownUnreachable | assistant/modules/system_controls.py:36-49 | The cancel-shutdown branch is never chosen, and "shutdown /a" is never run. |
| SystemControls.ShutdownOnlyOnExactYes | assistant/modules/system_controls.py:36-59 | `shutdown /s /t 60` runs iff a shutdown request is confirmed with exactly "yes" in any case. Restart works the same way. Without confirmation nothing happens. |
| SystemControls.ConfirmationExamples | assistant/modules/system_controls.py:38-44 | "y" and " yes" do not confirm; "YES" and "Yes" do. |
| SystemControls.BrowserFallsBackToGoogle | assistant/modules/system_controls.py:19-33 | A browser request launches the browser iff it is installed, and opens google.com otherwise. |
| SystemControls.RestartChromeOpensChrome | assistant/modules/system_controls.py:19-25 | "restart chrome" launches Chrome. |
| SystemControls.NoBranchWordNoAction | assistant/modules/system_controls.py:61-62 | A command naming no branch word takes no action, whatever is confirmed. |
| Assistant.GetCommandCategory | run.py:28-65 | The coarse category is always one of the seven labels. |
| Assistant.CategoryPriority | run.py:30-65 | Each label holds iff its keyword group occurs in the lowercased command and no earlier group does. News and weather beat everything, screenshot beats media, and media beats video, audio, system and info. Web search comes when nothing occurs. |
| Assistant.StopTheNewsIsInfo | run.py:33-46 | "stop the news" is an information request, not media control. |
| Assistant.GreetingByHour | run.py:136-141 | "Good morning!" iff the hour is 5 to 11, "Good afternoon!" iff 12 to 16, and "Good evening!" otherwise. |
| Assistant.ExitWordsReduce | run.py:158 | A command ends the session iff its lowercase form contains "exit", "quit" or "bye". "goodbye" adds nothing. |
| Assistant.QuiteEndsTheSession | run.py:158 | "That is QUITE enough" ends the session. |
| Assistant.RouteCommand | run.py:86-117 | The step-by-step routing reaches the handler, success flag and spoken lines of the routing rule. |
| Assistant.UnroutedCategoryApologises | run.py:87-117 | A missing category, or one outside the seven routed labels, reaches no handler. It fails and ends with the apology. |
| Assistant.SystemControlNeverSucceeds | run.py:104-117 | The system-control route does take `control_system`'s action, yet always fails and apologises. |
| Assistant.WeatherNeverSucceeds | run.py:93-124 | A weather request (not a news one) never succeeds. It asks for a city iff the cleaned city is empty. It ends in the error reply when a city is known, and in the apology otherwise. |
| Assistant.MediaCategoriesPressKeys | run.py:106-107 | The three media categories press exactly `handle_media`'s keys and succeed iff some key was pressed. |
| Assistant.SuccessIsConfirmed | run.py:83-119 | After a success outside web search and information requests, the response, or the stock line when the response is empty, follows the optional reassurance. Those two categories add no closing words. |
| Assistant.InfoFailureApologises | run.py:89-124 | A failed information request ends with the apology, or with the error reply when the missing weather handler was looked up. |
| Assistant.FailureApologises | run.py:87-124 | Every failed command ends with the apology, or with the error reply of the weather path. |
| Assistant.ProcessCommand | run.py:67-124 | The category bypasses the classifier for "news" or "headlines". Otherwise the command is added to the window with no answer. The record is offered to the review queue. The outcome is the routing rule's, and the dataset and model are untouched. |
| Assistant.ExitAt | run.py:147-163 | The exit position found is a heard, non-empty command that passes the exit test. |
| Assistant.ProcessedAreCommandsBeforeExit | run.py:147-166 | Every processed command is a heard non-empty command that is not an exit command, and it comes before the exit. |
| Assistant.ProcessedInOrder | run.py:147-166 | Commands are processed in the order heard. |
| Assistant.HeardCommandIsProcessed | run.py:147-166 | Every heard, non-empty, non-exit command before the exit is processed. |
| Assistant.ProcessedIsComplete | run.py:147-166 | From the start of the session, every command the loop should process is processed. |
| Assistant.SessionStep | run.py:165-166 | Processing one more command extends the outcomes, the window and the review queue by that command's effect. |
| Assistant.RunAssistant | run.py:126-187 | The greeting follows the hour. The outcomes, window and review queue are those of processing the commands before the exit, in order. After an exit word the generated farewell is spoken, or the stock one when it is empty. A list that ends without an exit word stands for the keyboard interrupt, which speaks the stock farewell. Every session then ends with the fatal-error reply and exit status 1, because the missing `cleanup` raises in the `finally` block and the outer handler catches it. |
| EnvFile.Lookup | setup_api_keys.py:30 | A key is found iff the dictionary has it, and the value found is paired with it. |
| EnvFile.SetLookup | setup_api_keys.py:23 | After assigning a key, looking it up gives the new value, and every other key is unchanged. |
| EnvFile.SetShape | setup_api_keys.py:23 | Assignment keeps the keys' positions. A new key goes at the end. |
| EnvFile.SetKeepsDistinct | setup_api_keys.py:23 | Assignment keeps the keys distinct. |
| EnvFile.UniversalNewlines | setup_api_keys.py:19 | Text read in text mode has no carriage return. |
| EnvFile.LinesAreLines | setup_api_keys.py:20 | Each line iterated is non-empty and has a newline only at its end. |
| EnvFile.LinesConcat | setup_api_keys.py:20 | The lines iterated, joined, give back the whole text. |
| EnvFile.ParseLine | setup_api_keys.py:21-22 | A line is read iff it holds "=". Key, "=" and value then give back the stripped line, and the key has no "=". |
| EnvFile.LastLineWins | setup_api_keys.py:20-23 | After reading a line with "=", its key holds its value. |
| EnvFile.LoadEntries | setup_api_keys.py:17-23 | The loading loop gives the reading rule's dictionary. |
| EnvFile.WriteEnv | setup_api_keys.py:85-87 | The writing loop gives one "key=value\n" line per entry, in dictionary order. |
| EnvFile.EntryLineParses | setup_api_keys.py:87 | A written line of a well-formed entry reads back as that entry. |
| EnvFile.WriteThenRead | setup_api_keys.py:17-87 | For distinct keys without "=", newline or surrounding blanks, and values without newline or surrounding blanks, reading the written file gives back the dictionary. |
| EnvFile.ReadEntriesWellFormed | setup_api_keys.py:17-23 | Whatever the file, the dictionary read has distinct, well-formed entries. |
| EnvFile.ReloadIsStable | setup_api_keys.py:17-87 | Writing what was read and reading it again gives the same dictionary, for every file. |
| EnvFile.SetupMaskShape | setup_api_keys.py:32 | For a key of five characters or more, the mask is 13 characters long. It starts with the first five and ends with the last five. |
| EnvFile.ShortKeyShownInFull | setup_api_keys.py:32 | A key of ten characters or fewer can be recovered whole from its mask and its length. |
| EnvFile.VeryShortKeyFromMask | setup_api_keys.py:32 | The mask of a key of five characters or fewer shows the key twice, so the mask alone determines the key. |
| EnvFile.MediumKeysShareMask | setup_api_keys.py:32 | Keys of six to ten characters need their length: "abcdef" and "abcdebcdef" both mask to "abcde...bcdef". |
| EnvFile.UpdateOtherKey | setup_api_keys.py:37-39 | Updating one key leaves every other key's value alone. |
| EnvFile.UpdateSameKey | setup_api_keys.py:31-39 | The key gets the stripped entered value iff its current value is empty or the answer lowercases to "y". Otherwise it keeps its value. |
| EnvFile.KeyReplacedOnlyWhenAsked | setup_api_keys.py:30-81 | Each of the three keys ends with the stripped entered value exactly when the replacement rule holds for it, and keeps its loaded value otherwise. The HuggingFace key's current value comes from config.py first. |
| EnvFile.OtherKeysKept | setup_api_keys.py:85-87 | Keys other than the three are written back with their loaded values. |
| EnvFile.KeyOrderKept | setup_api_keys.py:23-87 | The loaded keys keep their order. New ones come after, and only the three API keys can be new. |
| EnvFile.SavedFileReloads | setup_api_keys.py:17-87 | When the entered values hold no line break, reading the saved file gives back exactly the dictionary that was saved. |
| EnvFile.AskKey | setup_api_keys.py:30-39 | One key's prompt: the mask is shown iff a current value exists, and the update rule is applied. |
| EnvFile.CurrentHuggingFaceKey | setup_api_keys.py:62-71 | The current HuggingFace key is the one from config.py unless that is missing or empty, and then the file's. It is empty iff both are. |
| EnvFile.CurrentsKept | setup_api_keys.py:30-71 | The two earlier prompts cannot change the current value the next prompt shows. |
| EnvFile.SetupApiKeys | setup_api_keys.py:6-103 | Returns 0. The text written is the configured dictionary, and the masks shown are those of the keys' current values, in prompt order. |
| LoadEnv.Environment.constructor | load_env.py:19 | The environment starts as the given map. |
| LoadEnv.ToMapLookup | load_env.py:19 | The environment map of a dictionary has a key iff the dictionary does, with the same value. |
| LoadEnv.ToMapSet | load_env.py:19 | Assigning in the dictionary is assigning in its map. |
| LoadEnv.FirstRefusedIsFirst | load_env.py:15-19 | The refused position found is refused, and no earlier line is. |
| LoadEnv.EmptyNameRefused | load_env.py:17-19 | A line whose stripped form starts with "=" has an empty name, and the environment refuses it. |
| LoadEnv.ApplyLinesMeaning | load_env.py:15-19 | The loading loop sets every read line before the first refused one, and later lines override earlier ones. It raises iff some line is refused. |
| LoadEnv.LoadMatchesSetupRead | load_env.py:15-19 | When no line is refused, the environment becomes the old one overridden by the setup script's reading of the same file. |
| LoadEnv.OtherVariablesKept | load_env.py:15-19 | A variable the file does not name keeps its presence and its value. |
| LoadEnv.LoadAfterSetup | load_env.py:15-19 | Loading a file that the setup script wrote from a well-formed dictionary sets exactly that dictionary over the old environment, and raises nothing. |
| LoadEnv.LoadMaskShape | load_env.py:25 | Over ten characters, the mask is the setup script's mask: 13 characters showing the first and last five. Every value of ten characters or fewer gets the same mask, "***". |
| LoadEnv.RaisesIffSomeLineRefused | load_env.py:15-19 | The loading loop raises iff some line of the file is refused by the environment. |
| LoadEnv.MaskedIgnoresOtherVariables | load_env.py:23-26 | Two environments that agree on the three API keys, in presence and value, print the same masks: no other variable is printed. |
| LoadEnv.MaskedHidesMiddle | load_env.py:25 | Changing a long API key strictly inside its first and last five characters does not change the printed masks. |
| LoadEnv.Load | load_env.py:6-28 | A missing file returns MissingFile and changes nothing. Otherwise the environment becomes the loading loop's result, and the result is Raised iff a line was refused. The exit status is 0 iff the file exists and no line is refused. The masks are shown only after a complete load, and they are the masked API keys of the new environment. |

## Left out

- Speech recognition, text to speech, logging and console output are not modelled. They are I/O; what is heard and answered are parameters or outputs.
- The HuggingFace helper, the background queue-consumer thread and the results-cache keys are not modelled. They are concurrency and an external module; sentiment, response and answer are parameters.
- `generate_response`'s prompt building is not modelled. Its result is the helper's, a parameter.
- The scikit-learn pipeline, `train_test_split`, `classification_report` and joblib persistence are not modelled. They are foreign numeric libraries, replaced by the classifier and trainer oracles.
- NLTK `preprocess_text`, spaCy entity recognition and `get_similar_commands` are not modelled. They are tokenizer and embedding libraries that cannot be seen.
- The JSON files behind the dataset and the queue are not modelled. They are file I/O; the dataset and queue are in memory. A failed dataset save is the `saveOk` parameter of `UpdateModel`.
- `add_command`'s save of the queue file and its exception path are not modelled. The queue is in memory, so only validation can fail.
- `take_screenshot`, the psutil system information, and the weather and news HTTP calls are not modelled. They are I/O and float formatting; their results are parameters.
- HTTP fetching and BeautifulSoup scraping are not modelled. The results page is a parameter: a list of links, each with its `href` or none.
- `webbrowser.open`, `subprocess.Popen`, `os.system` and `input()` are not modelled. Their effects are emitted values, and typed answers are parameters.
- Lowercasing covers ASCII letters only, and stripping uses Python's whitespace set on single characters. There is no Unicode case mapping and no text encoding.
- `\w` in the query cleaning is ASCII letters, digits and underscore, and `\d` in `extract_video_index` is the ASCII digits. Python's Unicode word characters and Unicode decimal digits, which `int()` also converts, are not modelled. A command such as "٣" gives index 2 in the source and 0 here.
- The Windows upper-casing of environment names, the environment size limit and `os.environ`'s print order are not modelled. The printed masks are a map from key to mask.
- The printed `$env:`, `set` and `export` lines of the setup script are console output, so they are not modelled.
- `config.py` is not part of this model. Its HuggingFace key is an optional parameter, with None for a failed import.
- `EnvFile.SetupApiKeys`: a config key that is kept unchanged is not written to the file. This follows the source, which assigns the dictionary only when the key is re-entered.
- `Assistant.ProcessCommand` does not model exceptions other than the missing weather handler. The handlers cannot raise here.
- `Assistant.RunAssistant` runs over a finite list of heard commands, where the source loops with `while True`. A list that ends without an exit word stands for a session ended by a keyboard interrupt, which speaks the stock farewell. An interrupt at any other point is not modelled. Errors inside the loop come from the speech layer, which is not modelled.
- `main`'s outer handler is modelled only for the error that ends every session, the missing `cleanup`. Errors while the assistant is being set up are not modelled.
- `AdvancedFeatures.HandleMedia` does not model the exception path, where a failing key press returns False. Key presses cannot fail here.
- retrain_model.py and speech_utils.py are not modelled. They are a thin retraining script, plus microphone and speech I/O. `recognize_speech` lowercases what it hears (assistant/modules/speech_utils.py:15), so every command `main` passes on is lowercase, but `Assistant.RunAssistant` accepts any text. `AdvancedFeatures.UpperCaseIsUnrecognised` and `WebSearch.CapitalGoogleIsKept` therefore describe inputs that only a direct caller of `handle_media` or `search_web` can give.
