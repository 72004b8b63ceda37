/** The orchestrator: how it wires the group chat's selection and termination strategies,
    how it reads the two decision answers, and how `ProcessTaskAsync` seeds the chat and
    counts the turns it yields. Running the chat (choosing agents, windowing history,
    stopping) is Semantic Kernel's `AgentGroupChat`; here it is the opaque `invoke`. */
module Agents {
  import opened Wrappers
  import opened Text
  import opened Configuration

  // -------------------------------------------------------------- agents

  const BusinessAnalystName := "BusinessAnalyst"
  const DeveloperName := "Developer"
  const TechLeadName := "TechLead"
  const TeamLeadName := "TeamLead"

  // ------------------------------------------------------ result parsers

  /** The selection strategy's `ResultParser`: `result.GetValue<string>()?.Trim() ?? ""`,
      where `answer` is the string value of the decision function's result (`None` is null). */
  function SelectionResultParser(answer: Option<string>): (agentName: string)
    ensures answer.None? ==> agentName == ""
    ensures answer.Some? ==> IsTrimOf(answer.value, agentName)
    ensures |agentName| > 0 ==> !IsWhiteSpace(agentName[0]) && !IsWhiteSpace(agentName[|agentName| - 1])
  {
    if answer.Some? then TrimOfFacts(answer.value, Trim(answer.value)); Trim(answer.value) else ""
  }

  /** A blank answer, like a null one, selects the empty name. */
  lemma BlankSelectionIsEmpty(answer: Option<string>)
    requires IsNullOrWhiteSpace(answer)
    ensures SelectionResultParser(answer) == ""
  {
  }

  /** Parsing the parser's own output changes nothing. */
  lemma SelectionResultParserIdempotent(answer: Option<string>)
    ensures SelectionResultParser(Some(SelectionResultParser(answer))) == SelectionResultParser(answer)
  {
    if answer.Some? {
      TrimIsIdempotent(answer.value);
    }
  }

  /** The termination strategy's `ResultParser`:
      `result.GetValue<string>()?.Contains("yes", StringComparison.OrdinalIgnoreCase) ?? false`. */
  function TerminationResultParser(answer: Option<string>): (done: bool)
    ensures done <==> answer.Some? && exists i: nat :: MatchesAt(answer.value, "yes", i)
  {
    answer.Some? && ContainsIgnoreCase(answer.value, "yes")
  }

  /** "Yes", "YES." and "no... yes" all report completion; "No" and null do not. */
  lemma TerminationResultParserExamples()
    ensures TerminationResultParser(Some("Yes"))
    ensures TerminationResultParser(Some("YES."))
    ensures TerminationResultParser(Some("no... yes"))
    ensures !TerminationResultParser(Some("No"))
    ensures !TerminationResultParser(None)
  {
    assert MatchesAt("Yes", "yes", 0);
    assert MatchesAt("YES.", "yes", 0);
    assert "no... yes"[6..9] == "yes";
    assert MatchesAt("no... yes", "yes", 6);
  }

  // --------------------------------------------------------- the wiring

  /** `KernelFunctionSelectionStrategy` as configured. */
  datatype SelectionStrategy = SelectionStrategy(
    initialAgent: string,
    historyVariableName: string,
    historyTruncation: int)

  /** `KernelFunctionTerminationStrategy` as configured. */
  datatype TerminationStrategy = TerminationStrategy(
    agents: seq<string>,
    historyVariableName: string,
    historyTruncation: int,
    maximumIterations: int)

  /** `AgentGroupChat` as configured: its agents, in order, and its two strategies. */
  datatype GroupChatConfig = GroupChatConfig(
    agents: seq<string>,
    selection: SelectionStrategy,
    termination: TerminationStrategy)

  /** `CreateAgentGroupChat`: the four agents; selection starts with the business analyst
      over a window of `HistoryTruncation` messages; termination looks only at the team
      lead, over the last 2 messages, and stops after `MaxIterations`. */
  function CreateAgentGroupChat(settings: ApplicationSettings): (config: GroupChatConfig)
    ensures WellWired(config) && |config.agents| == 4
    ensures config.selection.initialAgent == BusinessAnalystName
    ensures config.termination.agents == [TeamLeadName]
    ensures config.selection.initialAgent !in config.termination.agents
    ensures config.selection.historyVariableName == "history" && config.termination.historyVariableName == "history"
    ensures config.selection.historyTruncation == settings.historyTruncation
    ensures config.termination.historyTruncation == 2
    ensures config.termination.maximumIterations == settings.maxIterations
  {
    // The names differ in length, except the two leads, which differ in their third letter.
    assert BusinessAnalystName[0] != TeamLeadName[0];
    assert TechLeadName[2] != TeamLeadName[2];
    GroupChatConfig(
      [BusinessAnalystName, DeveloperName, TechLeadName, TeamLeadName],
      SelectionStrategy(BusinessAnalystName, "history", settings.historyTruncation),
      TerminationStrategy([TeamLeadName], "history", 2, settings.maxIterations))
  }

  /** The agents of a group chat are distinct, and both strategies name only its agents. */
  predicate WellWired(config: GroupChatConfig) {
    && (forall i, j :: 0 <= i < j < |config.agents| ==> config.agents[i] != config.agents[j])
    && config.selection.initialAgent in config.agents
    && (forall a :: a in config.termination.agents ==> a in config.agents)
  }

  /** With the default settings, selection sees the last 6 messages, more than the 2 the
      termination check sees, and the chat stops after at most 10 iterations. */
  lemma DefaultGroupChatWindows()
    ensures var config := CreateAgentGroupChat(DefaultApplicationSettings);
      && config.selection.historyTruncation == 6
      && config.termination.historyTruncation < config.selection.historyTruncation
      && config.termination.maximumIterations == 10
  {
  }

  // ------------------------------------------------------ the chat object

  datatype AuthorRole = User | Assistant

  /** `ChatMessageContent`: who wrote it and what it says. */
  datatype ChatMessage = ChatMessage(role: AuthorRole, authorName: Option<string>, content: string)

  /** What `chat.InvokeAsync()` yields for a chat: the responses it streams, then a thrown
      exception if it stops by throwing. The group chat's own loop is not modelled. */
  datatype Invocation = Invocation(responses: seq<ChatMessage>, failure: Option<Exception>)

  /** The `AgentGroupChat` object: fixed configuration, and a history that grows. */
  class GroupChat {
    const config: GroupChatConfig
    var history: seq<ChatMessage>

    /** `CreateAgentGroupChat()` builds a chat with an empty history. */
    constructor (settings: ApplicationSettings)
      ensures config == CreateAgentGroupChat(settings) && history == []
    {
      config := CreateAgentGroupChat(settings);
      history := [];
    }

    /** `chat.AddChatMessage(message)`. */
    method AddChatMessage(message: ChatMessage)
      modifies this
      ensures history == old(history) + [message]
    {
      history := history + [message];
    }
  }

  /** The one user message `ProcessTaskAsync` seeds a chat with. */
  function TaskMessage(taskDescription: string): (m: ChatMessage)
    ensures m.role == User && m.content == taskDescription
  {
    ChatMessage(User, None, taskDescription)
  }

  /** `ProcessTaskAsync(taskDescription)`: a fresh chat, seeded with exactly one user
      message holding the task, is run; `iterations` counts the responses it streams; an
      exception it throws is handed back unchanged (the source logs it and rethrows). */
  method ProcessTask(
    settings: ApplicationSettings,
    taskDescription: string,
    invoke: (GroupChatConfig, seq<ChatMessage>) -> Invocation)
    returns (iterations: nat, failure: Option<Exception>)
    ensures var run := invoke(CreateAgentGroupChat(settings), [TaskMessage(taskDescription)]);
      iterations == |run.responses| && failure == run.failure
  {
    var chat := new GroupChat(settings);
    chat.AddChatMessage(TaskMessage(taskDescription));
    assert chat.config == CreateAgentGroupChat(settings);
    assert chat.history == [TaskMessage(taskDescription)];
    var run := invoke(chat.config, chat.history);
    iterations := 0;
    for k := 0 to |run.responses|
      invariant iterations == k
    {
      iterations := iterations + 1;
    }
    failure := run.failure;
  }
}
