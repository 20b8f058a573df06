/**
  The agent orchestrator: validates a task's type, composes the prompt from
  the user's stored context and the task, prefixes a persona sentence, hands
  the prompt to the text provider and keeps per-user usage counters with a
  bounded request history.

  The provider is not modelled: `ExecuteTask` receives it as a function from
  the prompt and token ceiling it is sent to the outcome it answers with.
 */
module Agents {
  import opened Wrappers
  import opened Context

  // ---------------------------------------------------------------------------
  // Task types and personas

  const ValidTaskTypes: seq<string> := ["analysis", "writing", "research"]

  const AnalysisPersona: string :=
    "You are an expert analyst. "
    + "Analyze the following information thoroughly and provide detailed insights:"
  const WritingPersona: string :=
    "You are a skilled writer. "
    + "Create well-structured, engaging content based on the following:"
  const ResearchPersona: string :=
    "You are a research assistant. "
    + "Provide comprehensive research findings and recommendations based on:"
  const GenericPersona: string := "Please respond to the following:"

  predicate IsValidTaskType(taskType: string)
  {
    taskType in ValidTaskTypes
  }

  /** `validTypes.join(sep)`. */
  function Join(parts: seq<string>, sep: string): string
  {
    if |parts| == 0 then ""
    else if |parts| == 1 then parts[0]
    else parts[0] + sep + Join(parts[1..], sep)
  }

  function InvalidTaskTypeMessage(taskType: string): string
  {
    "Invalid task type: " + taskType + ". Valid types are: " + Join(ValidTaskTypes, ", ")
  }

  /**
    `validateTaskType`: passes exactly the three known task types; any other
    value fails with a message naming it and listing the valid ones.
   */
  function ValidateTaskType(taskType: string): (r: Outcome<string>)
    ensures r.Pass? <==> taskType == "analysis" || taskType == "writing" || taskType == "research"
    ensures r.Fail? ==>
      r.error == "Invalid task type: " + taskType + ". Valid types are: " + "analysis" + ", " + "writing" + ", " + "research"
  {
    if taskType in ValidTaskTypes then Pass
    else
      JoinValidTaskTypes();
      Fail(InvalidTaskTypeMessage(taskType))
  }

  /** The list of valid types as the error message spells it out. */
  lemma JoinValidTaskTypes()
    ensures Join(ValidTaskTypes, ", ") == "analysis" + ", " + "writing" + ", " + "research"
  {
    assert ValidTaskTypes[1..] == ["writing", "research"];
    assert ValidTaskTypes[1..][1..] == ["research"];
  }

  /** The role-setting sentence for a task type (the `taskEnhancements` table). */
  function Persona(taskType: string): string
  {
    if taskType == "analysis" then AnalysisPersona
    else if taskType == "writing" then WritingPersona
    else if taskType == "research" then ResearchPersona
    else GenericPersona
  }

  /**
    `enhancePromptForTaskType`: the persona for the task type, a blank line,
    then the prompt unchanged.
   */
  function EnhancePrompt(taskType: string, prompt: string): (r: string)
    ensures |r| == |Persona(taskType)| + 2 + |prompt|
    ensures r[..|Persona(taskType)|] == Persona(taskType)
    ensures r[|Persona(taskType)|..|Persona(taskType)| + 2] == "\n\n"
    ensures r[|r| - |prompt|..] == prompt
  {
    Persona(taskType) + "\n\n" + prompt
  }

  /**
    Each known task type has its own persona, and every other value shares the
    generic one.
   */
  lemma PersonaIff(t1: string, t2: string)
    ensures Persona(t1) == Persona(t2) <==> t1 == t2 || (!IsValidTaskType(t1) && !IsValidTaskType(t2))
  {
    if Persona(t1) == Persona(t2) && t1 != t2 {
      if IsValidTaskType(t1) || IsValidTaskType(t2) {
        PersonasDifferEarly(t1, t2);
      }
    }
  }

  /** Two different personas already differ in one of their first eleven characters. */
  lemma PersonasDifferEarly(t1: string, t2: string)
    requires Persona(t1) != Persona(t2)
    ensures exists i :: 0 <= i < 11 && i < |Persona(t1)| && i < |Persona(t2)| && Persona(t1)[i] != Persona(t2)[i]
  {
    var p1, p2 := Persona(t1), Persona(t2);
    PersonaOpenings();
    var i := if p1 == GenericPersona || p2 == GenericPersona then 0
      else if {p1, p2} == {WritingPersona, ResearchPersona} then 10
      else 9;
    assert p1[i] != p2[i];
  }

  /** The characters that tell the personas apart. */
  lemma PersonaOpenings()
    ensures AnalysisPersona[0] == WritingPersona[0] == ResearchPersona[0] == 'Y' && GenericPersona[0] == 'P'
    ensures AnalysisPersona[9] == 'n' && WritingPersona[9] == ' ' && ResearchPersona[9] == ' '
    ensures WritingPersona[10] == 's' && ResearchPersona[10] == 'r'
  {
  }

  /**
    The enhanced prompt determines both the persona it was given and the
    prompt it wraps.
   */
  lemma EnhancePromptInjective(t1: string, p1: string, t2: string, p2: string)
    requires EnhancePrompt(t1, p1) == EnhancePrompt(t2, p2)
    ensures Persona(t1) == Persona(t2)
    ensures p1 == p2
  {
    if Persona(t1) != Persona(t2) {
      PersonasDifferEarly(t1, t2);
    }
  }

  // ---------------------------------------------------------------------------
  // Prompt composition

  const TaskHeader: string := "\n=== Task ===\n"

  function TaskDescription(taskType: string, prompt: string): string
  {
    "Task Type: " + taskType + "\nPrompt: " + prompt
  }

  /**
    The prompt before enhancement: the context block, a task header and the
    task description when context is wanted and there is some; otherwise the
    task description alone.
   */
  function ComposePrompt(contextText: string, includeContext: bool, taskType: string, prompt: string): (r: string)
    ensures |TaskDescription(taskType, prompt)| <= |r|
    ensures r[|r| - |TaskDescription(taskType, prompt)|..] == TaskDescription(taskType, prompt)
    ensures r == TaskDescription(taskType, prompt) <==> !includeContext || contextText == ""
    ensures includeContext && contextText != "" ==>
      |contextText| + |TaskHeader| <= |r| &&
      r[..|contextText|] == contextText &&
      r[|contextText|..|contextText| + |TaskHeader|] == TaskHeader
    ensures includeContext && contextText != "" ==>
      |r| == |contextText| + |TaskHeader| + |TaskDescription(taskType, prompt)|
  {
    if includeContext && contextText != "" then contextText + TaskHeader + TaskDescription(taskType, prompt)
    else TaskDescription(taskType, prompt)
  }

  /** The exact text sent to the provider for a task on a user's stored context. */
  function TaskPrompt(ctx: UserContext, taskType: string, prompt: string, includeContext: bool): string
  {
    EnhancePrompt(taskType, ComposePrompt(FormattedContext(ctx), includeContext, taskType, prompt))
  }

  /**
    With context requested, the prompt carries a context block and task header
    exactly when the user has stored something: an empty store never produces
    an empty context section.
   */
  lemma ContextSectionIff(ctx: UserContext, taskType: string, prompt: string)
    ensures ComposePrompt(FormattedContext(ctx), true, taskType, prompt) == TaskDescription(taskType, prompt)
      <==> ctx.qa == [] && ctx.documents == []
  {
    FormattedEmptyIff(ctx);
  }

  /**
    The provider always sees the persona first and the task's own prompt last,
    whatever the stored context.
   */
  lemma TaskPromptFrame(ctx: UserContext, taskType: string, prompt: string, includeContext: bool)
    ensures var sent := TaskPrompt(ctx, taskType, prompt, includeContext);
      |sent| >= |Persona(taskType)| + |prompt| &&
      sent[..|Persona(taskType)|] == Persona(taskType) &&
      sent[|sent| - |prompt|..] == prompt
  {
    var composed := ComposePrompt(FormattedContext(ctx), includeContext, taskType, prompt);
    var description := TaskDescription(taskType, prompt);
    var sent := EnhancePrompt(taskType, composed);
    assert composed[|composed| - |prompt|..] == prompt by {
      assert composed[|composed| - |description|..] == description;
      assert description[|description| - |prompt|..] == prompt;
    }
  }

  // ---------------------------------------------------------------------------
  // Provider outcomes and task results

  /** Token counts reported for one provider call. */
  datatype Usage = Usage(inputTokens: nat, outputTokens: nat, totalTokens: nat)

  /** An amount of money: the provider's cost computation never yields a negative one. */
  type Money = x: real | 0.0 <= x

  /** Cost computed for one provider call (rounding is the provider's concern). */
  datatype Cost = Cost(inputCost: Money, outputCost: Money, totalCost: Money)

  /** What the provider answers: generated text with its accounting, or an error. */
  datatype ProviderOutcome =
    | Generated(content: string, usage: Usage, cost: Cost)
    | ProviderError(message: string)

  /** What the orchestrator sends to the provider. */
  datatype ProviderRequest = ProviderRequest(prompt: string, maxTokens: int)

  /** The result object `executeTask` resolves to. */
  datatype TaskResult =
    | Succeeded(response: string, usage: Usage, cost: Cost, taskType: string)
    | Failed(error: string, taskType: string)

  /** `executeTask` either throws before doing anything or returns a result. */
  datatype TaskOutcome = Threw(message: string) | Returned(result: TaskResult)

  /** `options` with its two recognised fields, each possibly absent. */
  datatype TaskOptions = TaskOptions(includeContext: Option<bool>, maxTokens: Option<int>)

  const DefaultMaxTokens: int := 1000

  /**
    The result for a provider outcome: a success passes content, usage and cost
    through unchanged; a failure keeps only the message.
   */
  function ResultOf(taskType: string, answer: ProviderOutcome): (r: TaskResult)
    ensures r.taskType == taskType
    ensures r.Succeeded? <==> answer.Generated?
    ensures r.Succeeded? ==> r.response == answer.content && r.usage == answer.usage && r.cost == answer.cost
    ensures r.Failed? ==> r.error == answer.message
  {
    match answer
    case Generated(content, usage, cost) => Succeeded(content, usage, cost, taskType)
    case ProviderError(message) => Failed(message, taskType)
  }

  // ---------------------------------------------------------------------------
  // Usage accounting

  const HistoryLimit: nat := 100

  datatype HistoryEntry = HistoryEntry(tokens: nat, cost: Money)

  /** Cumulative counters and the window of the most recent requests for one user. */
  datatype UsageRecord = UsageRecord(totalRequests: nat, totalTokens: nat, totalCost: Money, requestHistory: seq<HistoryEntry>)

  const ZeroUsage: UsageRecord := UsageRecord(0, 0, 0.0, [])

  function Min(a: int, b: int): int
  {
    if a <= b then a else b
  }

  function EntryOf(usage: Usage, cost: Cost): HistoryEntry
  {
    HistoryEntry(usage.totalTokens, cost.totalCost)
  }

  /**
    One successful request's effect on a record: every counter grows, the
    history gains the new entry last and keeps at most HistoryLimit of the
    most recent entries.
   */
  function RecordRequest(rec: UsageRecord, usage: Usage, cost: Cost): (r: UsageRecord)
    ensures r.totalRequests == rec.totalRequests + 1
    ensures r.totalTokens == rec.totalTokens + usage.totalTokens
    ensures r.totalCost == rec.totalCost + cost.totalCost
    ensures r.totalTokens >= rec.totalTokens && r.totalCost >= rec.totalCost
    ensures |r.requestHistory| == Min(|rec.requestHistory| + 1, HistoryLimit)
    ensures r.requestHistory ==
      (rec.requestHistory + [EntryOf(usage, cost)])[|rec.requestHistory| + 1 - |r.requestHistory|..]
  {
    var history := rec.requestHistory + [EntryOf(usage, cost)];
    UsageRecord(
      rec.totalRequests + 1,
      rec.totalTokens + usage.totalTokens,
      rec.totalCost + cost.totalCost,
      if |history| > HistoryLimit then history[|history| - HistoryLimit..] else history)
  }

  /** What every stored record satisfies: it has seen a request and its window is full up to the limit. */
  predicate StatsInvariant(rec: UsageRecord)
  {
    rec.totalRequests > 0 && |rec.requestHistory| == Min(rec.totalRequests, HistoryLimit)
  }

  /** Recording a request on a fresh or well-formed record yields a well-formed one. */
  lemma RecordRequestKeepsInvariant(rec: UsageRecord, usage: Usage, cost: Cost)
    requires rec == ZeroUsage || StatsInvariant(rec)
    ensures StatsInvariant(RecordRequest(rec, usage, cost))
  {
  }

  /** The accounting of one successful provider call. */
  datatype Charge = Charge(usage: Usage, cost: Cost)

  /** The record after the given successful calls, oldest first. */
  function Replay(rec: UsageRecord, charges: seq<Charge>): UsageRecord
  {
    if charges == [] then rec
    else
      var last := charges[|charges| - 1];
      RecordRequest(Replay(rec, charges[..|charges| - 1]), last.usage, last.cost)
  }

  function HistoryOf(charges: seq<Charge>): seq<HistoryEntry>
  {
    if charges == [] then []
    else
      var last := charges[|charges| - 1];
      HistoryOf(charges[..|charges| - 1]) + [EntryOf(last.usage, last.cost)]
  }

  function SumTokens(charges: seq<Charge>): nat
  {
    if charges == [] then 0 else SumTokens(charges[..|charges| - 1]) + charges[|charges| - 1].usage.totalTokens
  }

  function SumCost(charges: seq<Charge>): Money
  {
    if charges == [] then 0.0 else SumCost(charges[..|charges| - 1]) + charges[|charges| - 1].cost.totalCost
  }

  /**
    After N successful calls from nothing: the counters hold N and the exact
    sums, never capped, while the history holds the last min(N, HistoryLimit)
    entries in call order.
   */
  lemma {:induction false} ReplayFromZero(charges: seq<Charge>)
    ensures |HistoryOf(charges)| == |charges|
    ensures Replay(ZeroUsage, charges).totalRequests == |charges|
    ensures Replay(ZeroUsage, charges).totalTokens == SumTokens(charges)
    ensures Replay(ZeroUsage, charges).totalCost == SumCost(charges)
    ensures |Replay(ZeroUsage, charges).requestHistory| == Min(|charges|, HistoryLimit)
    ensures Replay(ZeroUsage, charges).requestHistory ==
      HistoryOf(charges)[|charges| - Min(|charges|, HistoryLimit)..]
  {
    if charges != [] {
      var n := |charges|;
      var init := charges[..n - 1];
      var last := charges[n - 1];
      ReplayFromZero(init);
      var before := Replay(ZeroUsage, init).requestHistory;
      var all := HistoryOf(charges);
      assert all == HistoryOf(init) + [EntryOf(last.usage, last.cost)];
      var m := Min(n - 1, HistoryLimit);
      assert before + [EntryOf(last.usage, last.cost)] == all[n - 1 - m..];
    }
  }

  /**
    The counters only grow: the record after the first k of a run of calls
    never holds more tokens or more cost than the record after the whole run.
   */
  lemma {:induction false} ReplayNeverDecreases(rec: UsageRecord, charges: seq<Charge>, k: nat)
    requires k <= |charges|
    ensures Replay(rec, charges).totalRequests == Replay(rec, charges[..k]).totalRequests + (|charges| - k)
    ensures Replay(rec, charges[..k]).totalTokens <= Replay(rec, charges).totalTokens
    ensures Replay(rec, charges[..k]).totalCost <= Replay(rec, charges).totalCost
  {
    if k < |charges| {
      var init := charges[..|charges| - 1];
      assert init[..k] == charges[..k];
      ReplayNeverDecreases(rec, init, k);
    } else {
      assert charges[..k] == charges;
    }
  }

  // ---------------------------------------------------------------------------
  // The orchestrator object

  class AgentOrchestrator {
    const contextManager: ContextManager
    var usageStats: map<UserId, UsageRecord>

    ghost predicate StatsValid()
      reads this
    {
      forall u :: u in usageStats ==> StatsInvariant(usageStats[u])
    }

    ghost predicate Valid()
      reads this, contextManager
    {
      contextManager.Valid() && StatsValid()
    }

    constructor ()
      ensures Valid() && fresh(contextManager)
      ensures usageStats == map[]
      ensures contextManager.userContexts == map[] && contextManager.userOrder == []
    {
      contextManager := new ContextManager();
      usageStats := map[];
    }

    /**
      `getUserStats`: the user's record, or a zeroed one (not inserted) for a
      user without successful requests.
     */
    function GetUserStats(userId: UserId): (r: UsageRecord)
      reads this
      ensures userId in usageStats ==> r == usageStats[userId]
      ensures userId !in usageStats ==> r == ZeroUsage
      ensures StatsValid() ==> (r.totalRequests == 0 <==> userId !in usageStats)
      ensures StatsValid() ==> |r.requestHistory| == Min(r.totalRequests, HistoryLimit)
    {
      if userId in usageStats then usageStats[userId] else ZeroUsage
    }

    /**
      `updateUsageStats`: creates the user's zeroed record if needed, then
      counts the request, adds its tokens and cost, appends a history entry
      and trims the history to the last HistoryLimit entries.
     */
    method UpdateUsageStats(userId: UserId, usage: Usage, cost: Cost)
      requires StatsValid()
      modifies this
      ensures StatsValid()
      ensures usageStats == old(usageStats)[userId := RecordRequest(old(GetUserStats(userId)), usage, cost)]
    {
      if userId !in usageStats {
        usageStats := usageStats[userId := ZeroUsage];
      }
      var userStats := usageStats[userId];
      ghost var before := userStats;
      var history := userStats.requestHistory + [HistoryEntry(usage.totalTokens, cost.totalCost)];
      if |history| > HistoryLimit {
        history := history[|history| - HistoryLimit..];
      }
      userStats := UsageRecord(
        userStats.totalRequests + 1,
        userStats.totalTokens + usage.totalTokens,
        userStats.totalCost + cost.totalCost,
        history);
      assert userStats == RecordRequest(before, usage, cost);
      RecordRequestKeepsInvariant(before, usage, cost);
      usageStats := usageStats[userId := userStats];
    }

    /**
      `executeTask`. An invalid task type throws before the provider is asked
      and before any counter moves. Otherwise the composed, enhanced prompt is
      sent with the token ceiling; a generated answer is accounted for and
      returned unchanged, a provider error becomes a failed result and leaves
      the counters alone. The stored context is never changed.
     */
    method ExecuteTask(userId: UserId, taskType: string, prompt: string, options: TaskOptions,
                       provider: (string, int) -> ProviderOutcome)
      returns (outcome: TaskOutcome, request: Option<ProviderRequest>)
      requires Valid()
      modifies this
      ensures Valid()
      ensures unchanged(contextManager)
      ensures !IsValidTaskType(taskType) ==>
        outcome == Threw(InvalidTaskTypeMessage(taskType)) && request == None && usageStats == old(usageStats)
      ensures IsValidTaskType(taskType) ==>
        request == Some(ProviderRequest(
          TaskPrompt(contextManager.GetContext(userId), taskType, prompt, options.includeContext.GetOr(true)),
          options.maxTokens.GetOr(DefaultMaxTokens)))
      ensures request.Some? ==>
        var answer := provider(request.value.prompt, request.value.maxTokens);
        outcome == Returned(ResultOf(taskType, answer)) &&
        usageStats == if answer.Generated?
          then old(usageStats)[userId := RecordRequest(old(GetUserStats(userId)), answer.usage, answer.cost)]
          else old(usageStats)
    {
      var includeContext := options.includeContext.GetOr(true);
      var maxTokens := options.maxTokens.GetOr(DefaultMaxTokens);

      var validation := ValidateTaskType(taskType);
      if validation.Fail? {
        outcome, request := Threw(validation.error), None;
        return;
      }

      var fullPrompt := "";
      if includeContext {
        var contextData := contextManager.FormatContextForPrompt(userId);
        if contextData != "" {
          fullPrompt := contextData + TaskHeader + TaskDescription(taskType, prompt);
        } else {
          fullPrompt := TaskDescription(taskType, prompt);
        }
      } else {
        fullPrompt := TaskDescription(taskType, prompt);
      }

      var taskPrompt := EnhancePrompt(taskType, fullPrompt);
      request := Some(ProviderRequest(taskPrompt, maxTokens));

      var response := provider(taskPrompt, maxTokens);
      match response {
        case Generated(content, usage, cost) =>
          UpdateUsageStats(userId, usage, cost);
          outcome := Returned(Succeeded(content, usage, cost, taskType));
        case ProviderError(message) =>
          outcome := Returned(Failed(message, taskType));
      }
    }

    /** `storeContext`, delegated to the context manager; usage counters are untouched. */
    method StoreContext(userId: UserId, contextData: ContextData) returns (success: bool)
      requires Valid()
      modifies contextManager
      ensures Valid()
      ensures success
      ensures usageStats == old(usageStats)
      ensures contextManager.userContexts ==
        old(contextManager.userContexts)[userId := AddEntry(old(contextManager.GetContext(userId)), contextData)]
      ensures contextManager.userOrder ==
        if userId in old(contextManager.userContexts) then old(contextManager.userOrder)
        else old(contextManager.userOrder) + [userId]
    {
      success := contextManager.StoreContext(userId, contextData);
    }

    /** `getContext`, delegated to the context manager. */
    function GetContext(userId: UserId): (c: UserContext)
      reads this, contextManager
      ensures userId in contextManager.userContexts ==> c == contextManager.userContexts[userId]
      ensures userId !in contextManager.userContexts ==> c.qa == [] && c.documents == []
    {
      contextManager.GetContext(userId)
    }
  }
}
