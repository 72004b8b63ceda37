# sk-agentic-app: the orchestrator's own decisions, in Dafny

The application runs a team of four agents (BusinessAnalyst, Developer, TechLead and
TeamLead) through a Semantic Kernel `AgentGroupChat`. The conversation loop lives in that
library: choosing the next agent, checking for termination, truncating history and
capping iterations. This model does not rebuild it. It models what the repository's own
code decides:

- **Agents** (`Agents.dfy`) covers `AgentOrchestrator`.
  - The selection strategy's result parser trims the decision text, and null becomes "".
  - The termination strategy's parser reports completion when the text contains "yes", ignoring case.
  - The strategies are wired as fixed data.
  - `ProcessTaskAsync` seeds a fresh chat with one user message, counts the responses the chat yields, and rethrows any failure unchanged.
  - Running the chat is a function parameter, `invoke`: from the chat's configuration and seed history it gives what `InvokeAsync` streams.
- **Configuration** (`Configuration.dfy`) covers the settings defaults and `AzureOpenAISettings.Validate`, an ordered three-guard check. `Uri.TryCreate` is a function parameter.
- **Application** (`Application.dfy`) covers the console loop `RunAsync` over a finite sequence of input lines, and `RunTaskAsync`. The orchestrator is a function that answers a task with the exception it threw, if any.
- **Plugins** (`Plugins.dfy`) covers `DevelopmentPlugin.SaveProjectFilesAsync`.
  - JSON decoding is a function parameter.
  - The file system is a `FileSystem` object: it answers each of the two calls from fixed functions and records the calls made.
- **Text** (`Text.dfy`) holds the .NET string operations the code relies on: `char.IsWhiteSpace`, `string.IsNullOrWhiteSpace`, `Trim`, ordinal case-insensitive `Equals` and `Contains`, and `int.ToString`.
- **Wrappers** (`Wrappers.dfy`) holds null as `Option`, exceptions, and the two outcome types.

## Model

| member | source | states |
|---|---|---|
| Agents.SelectionResultParser | Agents/AgentOrchestrator.cs:90 | a null answer gives ""; otherwise the result is the answer with its leading and trailing white space cut, so it neither starts nor ends with white space |
| Text.ContainsIgnoreCase | Agents/AgentOrchestrator.cs:103 | true exactly when the pattern occurs at some position of the string, compared ignoring case |
| Text.Trim | Agents/AgentOrchestrator.cs:90 | the result is the input with only leading and trailing white space removed: everything cut is white space, and what stays begins and ends with a non-white-space character, or is empty |
| Text.TrimOfFacts | Agents/AgentOrchestrator.cs:90 | a trimmed string has no white space at either end, and it is empty exactly when the whole input is white space |
| Text.TrimIsIdempotent | Agents/AgentOrchestrator.cs:90 | trimming a trimmed string changes nothing |
| Text.TrimOfIsUnique | Agents/AgentOrchestrator.cs:90 | the trimming characterisation admits one result only, so the parser's contract fixes its output |
| Agents.BlankSelectionIsEmpty | Agents/AgentOrchestrator.cs:90 | a null, empty or all-white-space answer selects "" |
| Agents.SelectionResultParserIdempotent | Agents/AgentOrchestrator.cs:90 | parsing the parser's own output changes nothing |
| Agents.TerminationResultParser | Agents/AgentOrchestrator.cs:102-103 | completion is reported exactly when the answer is not null and "yes" occurs in it at some position, ignoring case |
| Agents.TerminationResultParserExamples | Agents/AgentOrchestrator.cs:102-103 | "Yes", "YES." and "no... yes" report completion; "No" and null do not |
| Agents.CreateAgentGroupChat | Agents/AgentOrchestrator.cs:72-117 | the chat has four distinct agents and both strategies name only them; selection starts with BusinessAnalyst and sees the last `HistoryTruncation` messages; only TeamLead's turns are checked for termination, on the last 2 messages, with `MaxIterations` as the cap; both strategies read the "history" variable |
| Agents.DefaultGroupChatWindows | Agents/AgentOrchestrator.cs:92-106 | with default settings selection sees 6 messages, more than the 2 termination sees, and the cap is 10 iterations |
| Agents.TaskMessage | Agents/AgentOrchestrator.cs:47 | the seed message has the User role and the task description as content |
| Agents.GroupChat.AddChatMessage | Agents/AgentOrchestrator.cs:47 | the chat's history grows by exactly the added message |
| Agents.ProcessTask | Agents/AgentOrchestrator.cs:35-70 | the chat is run on the configured wiring with exactly one seed message, the User message holding the task; the iteration count equals the number of responses yielded; a failure is handed back unchanged |
| Configuration.IsAbsoluteHttps | Configuration/AzureOpenAISettings.cs:21 | true exactly when the URI parser accepts the endpoint as absolute and the parsed scheme is "https" |
| Configuration.Validate | Configuration/AzureOpenAISettings.cs:9-25 | a blank endpoint fails with the Endpoint error; otherwise a blank key fails with the API Key error; otherwise a non-absolute or non-"https" endpoint fails with the HTTPS error; it passes exactly when none of these holds |
| Configuration.ErrorMessage | Configuration/AzureOpenAISettings.cs:13-23 | every validation message begins "Azure OpenAI " |
| Configuration.ErrorMessageIdentifiesError | Configuration/AzureOpenAISettings.cs:13-23 | the three exception messages, each beginning "Azure OpenAI ", are pairwise distinct, so the message names the failed guard |
| Configuration.ValidateIgnoresDeploymentName | Configuration/AzureOpenAISettings.cs:5-25 | changing the deployment name never changes the outcome |
| Configuration.DefaultSettingsFailOnEndpoint | Configuration/AzureOpenAISettings.cs:5-14 | a default-constructed settings object fails with the Endpoint error |
| Application.IsExitCommand | Application/Application.cs:32-33 | the whole line, upper-cased, is "EXIT" or "QUIT"; an exit command is four characters long and never blank |
| Text.EqualsIgnoreCaseIsUpperEquality | Application/Application.cs:32-33 | two strings are equal ignoring case exactly when their upper-case forms are equal |
| Application.Dispatched | Application/Application.cs:29-38 | no more tasks are handed over than lines are read |
| Application.DispatchedAreTasks | Application/Application.cs:29-38 | every task handed over is an input line, not blank and not an exit command |
| Application.DispatchedIsNonBlankBeforeExit | Application/Application.cs:29-38 | the tasks handed over are exactly the non-blank lines before the first "exit" or "quit" (any case, untrimmed) |
| Application.DispatchedStopsAtExit | Application/Application.cs:32-34 | nothing after an exit command is processed |
| Application.DispatchedKeepsOrder | Application/Application.cs:36-38 | tasks reach the orchestrator in input order, each input line at most once |
| Application.RunAsync | Application/Application.cs:17-47 | the k-th call passes the k-th dispatched line verbatim; every dispatched line is called, whatever earlier calls threw |
| Application.RunTask | Application/Application.cs:49-59 | one call with the given description; its failure is recorded, not propagated |
| Application.StepAsWritten | Application/Application.cs:23-44 | one pass of the loop as written: a stopped loop stays stopped; the loop stops exactly at an exit command; otherwise it moves to the next read, past the end of input too, and the task list grows by the line exactly when the line is neither blank nor an exit command |
| Application.AsWrittenStopsAtExit | Application/Application.cs:23-44 | as written, input holding an exit command stops at the first one, one pass per line up to it, having handed over exactly the dispatched tasks |
| Application.ReadLoopSpinsAtEndOfInput | Application/Application.cs:23-30 | as written, once input is exhausted every pass reads null, skips it, and the loop never stops |
| Application.ReadLoopNeverStopsWithoutExit | Application/Application.cs:23-38 | as written, a run over input with no exit command is still reading after any number of passes, whatever the lines |
| Application.ReadLoopStopsAtEndOfInput | Application/Application.cs:23-38 | with end of input leaving the loop, it stops within one pass per remaining line, having handed over exactly the dispatched tasks |
| Plugins.ErrorResult | Plugins/DevelopmentPlugin.cs:47 | the text is "Error: " followed by exactly the exception's message |
| Plugins.SuccessResult | Plugins/DevelopmentPlugin.cs:42 | the text begins "Success: Saved ", then the file count in decimal, and ends with the project path |
| Plugins.SaveResult | Plugins/DevelopmentPlugin.cs:22-49 | every result starts with "Success: " or "Error: "; a null or empty map gives exactly "Error: No files provided"; a decoding, directory-creation or save exception gives "Error: " plus that exception's message; success exactly when the map is non-empty and both file-system calls succeed, with the message "Success: Saved N files to P" |
| Plugins.SaveCalls | Plugins/DevelopmentPlugin.cs:29-37 | no file-system call for a failed decode or a null or empty map; otherwise exactly one directory creation for the project name, then one save of the whole map into the returned path |
| Plugins.SaveProjectFilesAsync | Plugins/DevelopmentPlugin.cs:22-49 | returns the `SaveResult` string and makes exactly the `SaveCalls` calls; never throws; `language` affects neither |
| Plugins.SuccessReportsFileCount | Plugins/DevelopmentPlugin.cs:42 | the count in a success message reads back as the number of files |
| Plugins.FileSystem.CreateProjectDirectoryAsync | Services/IFileSystemService.cs:5 | records one directory-creation call and answers with the collaborator's path or exception |
| Plugins.FileSystem.SaveFilesAsync | Services/IFileSystemService.cs:7 | records one save call and answers with the collaborator's outcome |

## Left out

- The group chat's own loop (`AgentGroupChat.InvokeAsync`) is a Semantic Kernel internal. That covers agent selection, termination checks, history truncation and the `MaximumIterations` cutoff. It is the opaque `invoke` parameter.
- `ChatHistoryTruncationReducer` is modelled only as its configured size, because what it keeps is library behaviour.
- Kernel construction, agent creation, LLM calls and the TeamLead function-calling setting (`KernelService`, `AgentFactory`) are foreign library objects and network clients.
- Prompt texts (`AgentDefinitions`) are prose; only the four agent names are kept.
- `FileSystemService` internals are not modelled. Its timestamped paths, directory creation and file writes sit behind the `FileSystem` collaborator.
- Host bootstrap (`Program.cs`), logging, the random task id and `EnableDetailedLogging` affect only logs or startup.
- Console prompts and output are not modelled; they are I/O.
- Agents.ProcessTask: an exception thrown while building the chat (agent factory, kernel) is also rethrown unchanged by the source. The model only carries failures of the invocation stream, because building the chat is library code.
- Text.CharEqualsIgnoreCase: folds only ASCII letters. .NET's ordinal case-insensitive comparison also folds non-ASCII letters. This model does not.
- Application.RunAsync: the input is a finite sequence, and the loop ends when the sequence does. The source spins at end of input instead; see Findings.
- Application.RunAsync: the orchestrator is a function, so the same task is assumed to give the same outcome each time.
- Plugins.SaveProjectFilesAsync: `null` values inside the decoded dictionary are not distinguished from strings. Partial writes inside `SaveFilesAsync` before it throws belong to the collaborator.
- Configuration.Validate: the source throws `InvalidOperationException`; the model returns `Fail(error)`, with `ErrorMessage` giving each message text.
- The code has no protocol-violation, cancellation or approved-versus-capped outcome, so the model has none.

## Findings

| source | as written | input that shows it | evidently intended | confidence | as-written member | corrected member |
|---|---|---|---|---|---|---|
| Application/Application.cs:23-30 | `Console.ReadLine()` returns null once input is exhausted; null counts as blank and is skipped with `continue`, so `while (true)` reads null forever | the line "write a calculator" followed by end of input (no "exit") | end of input leaves the loop, like "exit" | medium; not executed | Application.ReadLoopSpinsAtEndOfInput | Application.ReadLoopStopsAtEndOfInput |
