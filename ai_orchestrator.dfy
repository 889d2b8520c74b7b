/** The conversation window of the AI orchestrator (class AIOrchestrator): a first-in first-out
    window of at most five exchanges, its text form, and the calls that add to it and clear it.

    The HuggingFace helper's answers (sentiment, generated response, question answering) are
    parameters; the background task queue and its worker thread are not part of this model. */
module AIOrchestration {
  import opened Common
  import opened NlpLearning

  const MaxContextItems: nat := 5

  /** One exchange: what the user said and what the assistant answered (None before it has). */
  datatype ContextItem = ContextItem(user: string, assistant: Option<string>)

  /** The dictionary `preprocess_command` returns. */
  datatype Analysis = Analysis(command: string, category: Option<string>, context: string)

  /** The dictionary `enhance_command` returns. */
  datatype Enhancement = Enhancement(
    command: string, category: Option<string>, sentiment: string, response: string, context: string)

  /** The window after `add_to_context`: the item appended and, past five, the oldest dropped. */
  function Pushed(window: seq<ContextItem>, item: ContextItem): seq<ContextItem> {
    var w := window + [item];
    if |w| > MaxContextItems then w[1..] else w
  }

  /** The last `n` elements of `s` (all of them when there are fewer). */
  function LastN(s: seq<ContextItem>, n: nat): (r: seq<ContextItem>)
    ensures |r| <= n && EndsWithItems(s, r)
  {
    if |s| <= n then s else s[|s| - n..]
  }

  predicate EndsWithItems(s: seq<ContextItem>, suffix: seq<ContextItem>) {
    |suffix| <= |s| && s[|s| - |suffix|..] == suffix
  }

  /** Adding to a window of at most five keeps the last five of everything seen: the new item is
      last, and on overflow exactly the oldest item goes. */
  lemma PushedKeepsLastFive(window: seq<ContextItem>, item: ContextItem)
    requires |window| <= MaxContextItems
    ensures Pushed(window, item) == LastN(window + [item], MaxContextItems)
    ensures |Pushed(window, item)| <= MaxContextItems
    ensures Pushed(window, item)[|Pushed(window, item)| - 1] == item
    ensures |window| == MaxContextItems ==> Pushed(window, item) == window[1..] + [item]
    ensures |window| < MaxContextItems ==> Pushed(window, item) == window + [item]
  {
  }

  /** The window after a series of adds, in order. */
  function AfterAdds(window: seq<ContextItem>, items: seq<ContextItem>): seq<ContextItem>
    decreases |items|
  {
    if items == [] then window
    else Pushed(AfterAdds(window, items[..|items| - 1]), items[|items| - 1])
  }

  /** Taking the last five and then adding is taking the last five after adding. */
  lemma LastFiveThenPush(all: seq<ContextItem>, x: ContextItem)
    ensures Pushed(LastN(all, MaxContextItems), x) == LastN(all + [x], MaxContextItems)
  {
    if |all| > MaxContextItems {
      var n := MaxContextItems;
      assert LastN(all, n) + [x] == all[|all| - n..] + [x];
      assert (all + [x])[|all + [x]| - n..] == all[|all| - n + 1..] + [x];
    }
  }

  /** After any number of adds, the window holds the last five of the old window followed by the
      added items, in order: from an empty window, the last min(k, 5) items added. */
  lemma {:induction false} AfterAddsKeepsLastFive(window: seq<ContextItem>, items: seq<ContextItem>)
    requires |window| <= MaxContextItems
    ensures AfterAdds(window, items) == LastN(window + items, MaxContextItems)
    decreases |items|
  {
    if items != [] {
      var init := items[..|items| - 1];
      var x := items[|items| - 1];
      AfterAddsKeepsLastFive(window, init);
      assert window + items == (window + init) + [x];
      LastFiveThenPush(window + init, x);
    }
  }

  /** One exchange as `get_context` prints it; Python prints a missing answer as "None". */
  function FormatItem(item: ContextItem): string {
    "User: " + item.user + "\nAssistant: " + (match item.assistant case None => "None" case Some(a) => a)
  }

  function FormatItems(window: seq<ContextItem>): (r: seq<string>)
    ensures |r| == |window| && forall i :: 0 <= i < |window| ==> r[i] == FormatItem(window[i])
  {
    seq(|window|, i requires 0 <= i < |window| => FormatItem(window[i]))
  }

  /** `get_context`: one block per exchange, in window order, separated by newlines. */
  function FormatContext(window: seq<ContextItem>): string {
    Join(FormatItems(window), "\n")
  }

  /** An empty window prints as "", and a window grows its text by a newline and one block. */
  lemma FormatContextAppend(window: seq<ContextItem>, item: ContextItem)
    ensures FormatContext([]) == ""
    ensures FormatContext([item]) == FormatItem(item)
    ensures window != [] ==>
              FormatContext(window + [item]) == FormatContext(window) + "\n" + FormatItem(item)
  {
    var parts := FormatItems(window + [item]);
    assert FormatItems([item]) == [FormatItem(item)];
    if window != [] {
      assert parts[..|parts| - 1] == FormatItems(window);
    }
  }

  /** The text of a window ends with the block of its last exchange. */
  lemma FormatEndsWithLast(w: seq<ContextItem>, item: ContextItem)
    requires w != [] && w[|w| - 1] == item
    ensures EndsWith(FormatContext(w), FormatItem(item))
  {
    var init := w[..|w| - 1];
    assert w == init + [item];
    FormatContextAppend(init, item);
    if init == [] {
      EndsWithConcat([], FormatItem(item));
    } else {
      EndsWithConcat(FormatContext(init) + "\n", FormatItem(item));
    }
  }

  /** The context `preprocess_command` returns ends with the command just added, unanswered. */
  lemma PreprocessedContextEndsWithCommand(window: seq<ContextItem>, command: string)
    requires |window| <= MaxContextItems
    ensures EndsWith(FormatContext(Pushed(window, ContextItem(command, None))),
                     "User: " + command + "\nAssistant: None")
  {
    var item := ContextItem(command, None);
    PushedKeepsLastFive(window, item);
    FormatEndsWithLast(Pushed(window, item), item);
    assert FormatItem(item) == "User: " + command + "\nAssistant: None";
  }

  class AIOrchestrator {
    const learner: CommandLearner
    /** context_memory */
    var contextMemory: seq<ContextItem>
    /** results_cache: filled by the background worker, which this model leaves out. */
    var resultsCache: map<string, string>

    ghost predicate Valid()
      reads this
    {
      |contextMemory| <= MaxContextItems
    }

    constructor (learner: CommandLearner)
      ensures Valid() && this.learner == learner && contextMemory == [] && resultsCache == map[]
    {
      this.learner := learner;
      contextMemory := [];
      resultsCache := map[];
    }

    /** `add_to_context` */
    method AddToContext(item: ContextItem)
      requires Valid()
      modifies this`contextMemory
      ensures Valid()
      ensures contextMemory == Pushed(old(contextMemory), item)
    {
      contextMemory := contextMemory + [item];
      if |contextMemory| > MaxContextItems {
        contextMemory := contextMemory[1..];
      }
    }

    /** `get_context` */
    function GetContext(): string
      reads this
    {
      FormatContext(contextMemory)
    }

    /** `preprocess_command`: record the command, unanswered, then classify it. */
    method PreprocessCommand(command: string) returns (analysis: Analysis)
      requires Valid()
      modifies this`contextMemory
      ensures Valid()
      ensures contextMemory == Pushed(old(contextMemory), ContextItem(command, None))
      ensures analysis == Analysis(command, PredictCategory(learner.dataset, learner.model, command),
                                   FormatContext(contextMemory))
      ensures EndsWith(analysis.context, "User: " + command + "\nAssistant: None")
    {
      AddToContext(ContextItem(command, None));
      PreprocessedContextEndsWithCommand(old(contextMemory), command);
      analysis := Analysis(command, PredictCategory(learner.dataset, learner.model, command), GetContext());
    }

    /** `answer_question`: without a context of its own, the question is asked against the
        window; the exchange is then recorded. `answer` is the helper's answer. */
    method AnswerQuestion(question: string, context: Option<string>, answer: string)
      returns (askedWith: string)
      requires Valid()
      modifies this`contextMemory
      ensures Valid()
      ensures askedWith == if context.None? || context.value == "" then FormatContext(old(contextMemory)) else context.value
      ensures contextMemory == Pushed(old(contextMemory), ContextItem(question, Some(answer)))
    {
      askedWith := if context.None? || context.value == "" then GetContext() else context.value;
      AddToContext(ContextItem(question, Some(answer)));
    }

    /** `enhance_command`: the command goes to the review queue whatever its category, and the
        window is left alone. `sentiment` and `response` are the helper's answers. */
    method EnhanceCommand(command: string, category: Option<string>, sentiment: string, response: string,
                          timestamp: string)
      returns (enhanced: Enhancement)
      requires Valid()
      modifies learner
      ensures Valid() && contextMemory == old(contextMemory)
      ensures learner.queue == if AcceptsCommand(command, category)
                               then Enqueue(old(learner.queue), CommandRecord(command, category.value, timestamp))
                               else old(learner.queue)
      ensures learner.dataset == old(learner.dataset) && learner.model == old(learner.model)
      ensures enhanced == Enhancement(command, category, sentiment, response, FormatContext(contextMemory))
    {
      var _ := learner.AddCommand(command, category, timestamp);
      enhanced := Enhancement(command, category, sentiment, response, GetContext());
    }

    /** `cleanup`: the window and the results cache end up empty. */
    method Cleanup()
      modifies this
      ensures Valid() && contextMemory == [] && resultsCache == map[]
    {
      resultsCache := map[];
      contextMemory := [];
    }
  }
}
