/**
  Client code that uses only the contracts of the context manager and the
  orchestrator.
 */
module Scenarios {
  import opened Wrappers
  import opened Context
  import opened Agents

  /** Stores for two users and a request of an unknown kind. */
  method StoreInCallOrder(u: UserId, other: UserId, first: QAEntry, second: QAEntry, doc: DocumentEntry)
    requires u != other
  {
    var m := new ContextManager();
    var ok := m.StoreContext(u, ContextData("qa", ContextPayload(first.question, first.answer, "", "")));
    ok := m.StoreContext(other, ContextData("document", ContextPayload("", "", doc.title, doc.content)));
    ok := m.StoreContext(u, ContextData("qa", ContextPayload(second.question, second.answer, "", "")));
    ok := m.StoreContext(u, ContextData("note", ContextPayload("", "", doc.title, doc.content)));
    assert ok;
    assert m.GetContext(u) == UserContext([first, second], []);
    assert m.GetContext(other) == UserContext([], [doc]);
    assert m.GetAllUsers() == [u, other];
  }

  /** Clearing twice is like clearing once, and leaves other users alone. */
  method ClearTwice(u: UserId, other: UserId, doc: DocumentEntry)
    requires u != other
  {
    var m := new ContextManager();
    var ok := m.StoreContext(u, ContextData("document", ContextPayload("", "", doc.title, doc.content)));
    ok := m.StoreContext(other, ContextData("document", ContextPayload("", "", doc.title, doc.content)));
    assert m.GetAllUsers() == [u, other];
    ok := m.ClearContext(u);
    assert RemoveUser([u, other], u) == [other] by {
      assert [u, other][..1] == [u];
      assert [u][..0] == [];
    }
    ok := m.ClearContext(u);
    RemoveUserIdempotent([u, other], u);
    assert ok;
    assert m.GetContext(u) == EmptyContext;
    assert m.GetContext(other) == UserContext([], [doc]);
    assert m.GetAllUsers() == [other];
  }

  /**
    An unknown task type throws and leaves the counters alone; a valid one on
    an empty store sends the bare task description behind the persona.
   */
  method TaskOnEmptyStore(u: UserId, taskType: string, prompt: string, provider: (string, int) -> ProviderOutcome)
  {
    var agent := new AgentOrchestrator();
    var outcome, request := agent.ExecuteTask(u, taskType, prompt, TaskOptions(None, Some(500)), provider);
    if !IsValidTaskType(taskType) {
      assert outcome.Threw? && request == None && agent.usageStats == map[];
    } else {
      ContextSectionIff(EmptyContext, taskType, prompt);
      assert request == Some(ProviderRequest(EnhancePrompt(taskType, TaskDescription(taskType, prompt)), 500));
      assert outcome.result.Failed? ==> agent.usageStats == map[];
      assert outcome.result.Succeeded? ==> agent.GetUserStats(u).totalRequests == 1;
    }
  }
}
