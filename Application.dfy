/** The console front end: `RunAsync` reads task lines until "exit" or "quit" and hands
    each remaining non-blank line to the orchestrator; `RunTaskAsync` runs one task. Both
    log and swallow the orchestrator's exceptions. The console's input is the sequence
    `lines`; the orchestrator is `orchestrator`, which answers a task with the exception
    it threw, if any. */
module Application {
  import opened Wrappers
  import opened Text

  /** `input.Equals("exit", OrdinalIgnoreCase) || input.Equals("quit", OrdinalIgnoreCase)`:
      the whole line, untrimmed. */
  function IsExitCommand(line: string): (exit: bool)
    ensures exit <==> ToUpperAsciiString(line) == "EXIT" || ToUpperAsciiString(line) == "QUIT"
    ensures exit ==> |line| == 4 && !AllWhiteSpace(line)
  {
    EqualsIgnoreCaseIsUpperEquality(line, "exit");
    EqualsIgnoreCaseIsUpperEquality(line, "quit");
    assert ToUpperAsciiString("exit") == "EXIT";
    assert ToUpperAsciiString("quit") == "QUIT";
    ExitIsNotBlank(line);
    EqualsIgnoreCase(line, "exit") || EqualsIgnoreCase(line, "quit")
  }

  /** The tasks `RunAsync` hands to the orchestrator, in order, for console input `lines`. */
  function Dispatched(lines: seq<string>): (tasks: seq<string>)
    ensures |tasks| <= |lines|
  {
    if lines == [] then []
    else if AllWhiteSpace(lines[0]) then Dispatched(lines[1..])
    else if IsExitCommand(lines[0]) then []
    else [lines[0]] + Dispatched(lines[1..])
  }

  /** Every task handed over is an input line that is neither blank nor an exit command. */
  lemma {:induction false} DispatchedAreTasks(lines: seq<string>)
    ensures forall t :: t in Dispatched(lines) ==> t in lines && !AllWhiteSpace(t) && !IsExitCommand(t)
  {
    if lines != [] {
      DispatchedAreTasks(lines[1..]);
      assert forall t :: t in lines[1..] ==> t in lines;
    }
  }

  // ----------------------------------------- an independent description

  /** The position of the first exit command, or `|lines|` when there is none. */
  function ExitIndex(lines: seq<string>): (k: nat)
    ensures k <= |lines|
    ensures forall j :: 0 <= j < k ==> !IsExitCommand(lines[j])
    ensures k < |lines| ==> IsExitCommand(lines[k])
  {
    if lines == [] || IsExitCommand(lines[0]) then 0 else 1 + ExitIndex(lines[1..])
  }

  /** The lines that are not blank, in order. */
  function NonBlank(lines: seq<string>): seq<string> {
    if lines == [] then []
    else if AllWhiteSpace(lines[0]) then NonBlank(lines[1..])
    else [lines[0]] + NonBlank(lines[1..])
  }

  /** An exit command starts with a letter, so it is never blank. */
  lemma ExitIsNotBlank(line: string)
    ensures EqualsIgnoreCase(line, "exit") || EqualsIgnoreCase(line, "quit") ==> !AllWhiteSpace(line)
  {
    if EqualsIgnoreCase(line, "exit") || EqualsIgnoreCase(line, "quit") {
      assert CharEqualsIgnoreCase(line[0], 'e') || CharEqualsIgnoreCase(line[0], 'q');
    }
  }

  /** The dispatched tasks are exactly the non-blank lines before the first exit command. */
  lemma {:induction false} DispatchedIsNonBlankBeforeExit(lines: seq<string>)
    ensures Dispatched(lines) == NonBlank(lines[..ExitIndex(lines)])
  {
    if lines != [] {
      DispatchedIsNonBlankBeforeExit(lines[1..]);
      if !IsExitCommand(lines[0]) {
        assert lines[..ExitIndex(lines)][1..] == lines[1..][..ExitIndex(lines[1..])];
      }
    }
  }

  /** Nothing after an exit command is ever processed. */
  lemma {:induction false} DispatchedStopsAtExit(before: seq<string>, exit: string, after: seq<string>)
    requires IsExitCommand(exit)
    ensures Dispatched(before + [exit] + after) == Dispatched(before)
  {
    if before == [] {
      assert (before + [exit] + after)[0] == exit;
    } else {
      DispatchedStopsAtExit(before[1..], exit, after);
      assert (before + [exit] + after)[1..] == before[1..] + [exit] + after;
    }
  }

  /** `sub` is `s` with some elements left out, the rest kept in order. */
  predicate IsSubsequence(sub: seq<string>, s: seq<string>) {
    if sub == [] then true
    else if s == [] then false
    else if sub[0] == s[0] then IsSubsequence(sub[1..], s[1..])
    else IsSubsequence(sub, s[1..])
  }

  /** Lines reach the orchestrator in input order, each at most once. */
  lemma {:induction false} DispatchedKeepsOrder(lines: seq<string>)
    ensures IsSubsequence(Dispatched(lines), lines)
  {
    if lines != [] {
      DispatchedKeepsOrder(lines[1..]);
      var rest := Dispatched(lines[1..]);
      if AllWhiteSpace(lines[0]) {
        SubsequenceOfTail(rest, lines);
      } else if IsExitCommand(lines[0]) {
      } else {
        assert ([lines[0]] + rest)[1..] == rest;
      }
    }
  }

  lemma {:induction false} SubsequenceOfTail(sub: seq<string>, s: seq<string>)
    requires s != [] && IsSubsequence(sub, s[1..])
    ensures IsSubsequence(sub, s)
    decreases |sub| + |s|
  {
    if sub != [] && sub[0] == s[0] {
      // Skipping s[0] is as good as matching it, since sub[1..] fits wherever sub did.
      SubsequenceOfDrop(sub, s[1..]);
    }
  }

  lemma {:induction false} SubsequenceOfDrop(sub: seq<string>, s: seq<string>)
    requires sub != [] && IsSubsequence(sub, s)
    ensures IsSubsequence(sub[1..], s)
    decreases |sub| + |s|
  {
    if s != [] {
      if sub[0] == s[0] {
        if sub[1..] != [] {
          SubsequenceOfTail(sub[1..], s);
        }
      } else {
        SubsequenceOfDrop(sub, s[1..]);
        SubsequenceOfTail(sub[1..], s);
      }
    }
  }

  // ------------------------------------------------------------- the loop

  /** One call to `ProcessTaskAsync`: the task passed and the exception it threw, if any. */
  datatype TaskCall = TaskCall(task: string, failure: Option<Exception>)

  /** `RunAsync()`: blank lines are skipped, an exit command ends the loop, every other
      line goes verbatim to the orchestrator once, in order, and whatever the orchestrator
      throws is logged and the loop goes on. The loop also ends when the input does (see
      `ReadLoopStopsAtEndOfInput` for how the source behaves there). */
  method RunAsync(lines: seq<string>, orchestrator: string -> Option<Exception>)
    returns (calls: seq<TaskCall>)
    ensures |calls| == |Dispatched(lines)|
    ensures forall k :: 0 <= k < |calls| ==>
      calls[k] == TaskCall(Dispatched(lines)[k], orchestrator(Dispatched(lines)[k]))
  {
    calls := [];
    ghost var sent: seq<string> := [];
    var i := 0;
    while i < |lines|
      invariant 0 <= i <= |lines|
      invariant Dispatched(lines) == sent + Dispatched(lines[i..])
      invariant |calls| == |sent|
      invariant forall k :: 0 <= k < |calls| ==> calls[k] == TaskCall(sent[k], orchestrator(sent[k]))
    {
      var input := lines[i];
      DispatchedFrom(lines, i);
      i := i + 1;
      if AllWhiteSpace(input) {
        continue;
      }
      if IsExitCommand(input) {
        break;
      }
      var failure := orchestrator(input);
      // The exception, if any, is logged; the loop goes on.
      calls := calls + [TaskCall(input, failure)];
      assert sent + Dispatched(lines[i - 1..]) == (sent + [input]) + Dispatched(lines[i..]);
      sent := sent + [input];
    }
    assert i == |lines| ==> lines[i..] == [];
  }

  /** How `Dispatched` treats the line at position `i`. */
  lemma DispatchedFrom(lines: seq<string>, i: nat)
    requires i < |lines|
    ensures Dispatched(lines[i..]) ==
      if AllWhiteSpace(lines[i]) then Dispatched(lines[i + 1..])
      else if IsExitCommand(lines[i]) then []
      else [lines[i]] + Dispatched(lines[i + 1..])
  {
    assert lines[i..][1..] == lines[i + 1..];
  }

  /** `RunTaskAsync(taskDescription)`: one call with the given task; no exception escapes. */
  method RunTask(taskDescription: string, orchestrator: string -> Option<Exception>)
    returns (call: TaskCall)
    ensures call.task == taskDescription && call.failure == orchestrator(taskDescription)
  {
    var failure := orchestrator(taskDescription);
    call := TaskCall(taskDescription, failure);
  }

  // ------------------------------------------------- reading past the end

  /** `Console.ReadLine()` on the `pos`-th read: null once the input is exhausted. */
  function ReadLine(lines: seq<string>, pos: nat): Option<string> {
    if pos < |lines| then Some(lines[pos]) else None
  }

  /** Where one run of `RunAsync` stands: still reading at line `pos`, or out of the loop. */
  datatype LoopState = Reading(pos: nat, tasks: seq<string>) | Stopped(tasks: seq<string>)

  /** One pass of the source's `while (true)` body: a null line, like a blank one, is
      skipped with `continue`. */
  function StepAsWritten(lines: seq<string>, st: LoopState): (next: LoopState)
    ensures st.Stopped? ==> next == st
    ensures next.Stopped? <==> st.Stopped? || (st.pos < |lines| && IsExitCommand(lines[st.pos]))
    ensures next.Reading? ==> next.pos == st.pos + 1
    ensures st.Reading? && |lines| <= st.pos ==> next == Reading(st.pos + 1, st.tasks)
    ensures next.tasks == st.tasks +
      if st.Reading? && st.pos < |lines| && !AllWhiteSpace(lines[st.pos]) && !IsExitCommand(lines[st.pos])
      then [lines[st.pos]] else []
  {
    match st
    case Stopped(_) => st
    case Reading(pos, tasks) =>
      var input := ReadLine(lines, pos);
      if IsNullOrWhiteSpace(input) then Reading(pos + 1, tasks)
      else if IsExitCommand(input.value) then Stopped(tasks)
      else Reading(pos + 1, tasks + [input.value])
  }

  /** The same pass, except that the end of input (a null line) leaves the loop. */
  function StepStoppingAtEndOfInput(lines: seq<string>, st: LoopState): LoopState {
    if st.Reading? && ReadLine(lines, st.pos).None? then Stopped(st.tasks)
    else StepAsWritten(lines, st)
  }

  function RunAsWritten(lines: seq<string>, st: LoopState, steps: nat): LoopState
    decreases steps
  {
    if steps == 0 then st else RunAsWritten(lines, StepAsWritten(lines, st), steps - 1)
  }

  function RunStoppingAtEndOfInput(lines: seq<string>, st: LoopState, steps: nat): LoopState
    decreases steps
  {
    if steps == 0 then st
    else RunStoppingAtEndOfInput(lines, StepStoppingAtEndOfInput(lines, st), steps - 1)
  }

  /** As written, once the input is exhausted the loop never ends: every further pass
      reads null, skips it and reads again, without calling the orchestrator. */
  lemma {:induction false} ReadLoopSpinsAtEndOfInput(lines: seq<string>, pos: nat, tasks: seq<string>, steps: nat)
    requires pos >= |lines|
    ensures RunAsWritten(lines, Reading(pos, tasks), steps) == Reading(pos + steps, tasks)
    decreases steps
  {
    if steps > 0 {
      ReadLoopSpinsAtEndOfInput(lines, pos + 1, tasks, steps - 1);
    }
  }

  /** So, as written, input without an exit command keeps the loop reading forever,
      whatever the lines are and however many passes are made. */
  lemma {:induction false} ReadLoopNeverStopsWithoutExit(lines: seq<string>, pos: nat, tasks: seq<string>, steps: nat)
    requires forall j :: 0 <= j < |lines| ==> !IsExitCommand(lines[j])
    ensures RunAsWritten(lines, Reading(pos, tasks), steps).Reading?
    decreases steps
  {
    if steps > 0 {
      var next := StepAsWritten(lines, Reading(pos, tasks));
      assert next.Reading? && next.pos == pos + 1;
      ReadLoopNeverStopsWithoutExit(lines, pos + 1, next.tasks, steps - 1);
    }
  }

  /** As written, input that holds an exit command stops at it, having handed over exactly
      the tasks `Dispatched` names: on this path the source's loop and `RunAsync` agree. */
  lemma {:induction false} AsWrittenStopsAtExit(lines: seq<string>, pos: nat, tasks: seq<string>)
    requires pos <= ExitIndex(lines) < |lines|
    ensures RunAsWritten(lines, Reading(pos, tasks), ExitIndex(lines) - pos + 1)
      == Stopped(tasks + Dispatched(lines[pos..]))
    decreases ExitIndex(lines) - pos
  {
    var line := lines[pos];
    var steps := ExitIndex(lines) - pos + 1;
    DispatchedFrom(lines, pos);
    StepReads(lines, pos, tasks);
    if pos == ExitIndex(lines) {
      assert RunAsWritten(lines, Reading(pos, tasks), steps) == RunAsWritten(lines, Stopped(tasks), 0);
    } else {
      assert !IsExitCommand(line);
      var tasks' := if AllWhiteSpace(line) then tasks else tasks + [line];
      AsWrittenStopsAtExit(lines, pos + 1, tasks');
      assert RunAsWritten(lines, Reading(pos, tasks), steps) == RunAsWritten(lines, Reading(pos + 1, tasks'), steps - 1);
    }
  }

  /** One as-written pass over a line of the input. */
  lemma StepReads(lines: seq<string>, pos: nat, tasks: seq<string>)
    requires pos < |lines|
    ensures StepAsWritten(lines, Reading(pos, tasks)) ==
      if AllWhiteSpace(lines[pos]) then Reading(pos + 1, tasks)
      else if IsExitCommand(lines[pos]) then Stopped(tasks)
      else Reading(pos + 1, tasks + [lines[pos]])
  {
  }

  lemma {:induction false} StoppedStaysStopped(lines: seq<string>, tasks: seq<string>, steps: nat)
    ensures RunStoppingAtEndOfInput(lines, Stopped(tasks), steps) == Stopped(tasks)
    decreases steps
  {
    if steps > 0 {
      StoppedStaysStopped(lines, tasks, steps - 1);
    }
  }

  /** With the end of input treated as leaving the loop, reading from line `pos` stops
      within `|lines| - pos + 1` passes, having handed over exactly the tasks `Dispatched`
      names; this is the behaviour `RunAsync` has. */
  lemma {:induction false} ReadLoopStopsAtEndOfInput(lines: seq<string>, pos: nat, tasks: seq<string>)
    requires pos <= |lines|
    ensures RunStoppingAtEndOfInput(lines, Reading(pos, tasks), |lines| - pos + 1)
      == Stopped(tasks + Dispatched(lines[pos..]))
    decreases |lines| - pos
  {
    if pos == |lines| {
      assert lines[pos..] == [];
    } else {
      var line := lines[pos];
      assert lines[pos..][1..] == lines[pos + 1..];
      if AllWhiteSpace(line) {
        ReadLoopStopsAtEndOfInput(lines, pos + 1, tasks);
      } else if IsExitCommand(line) {
        StoppedStaysStopped(lines, tasks, |lines| - pos);
      } else {
        ReadLoopStopsAtEndOfInput(lines, pos + 1, tasks + [line]);
      }
    }
  }
}
