/** The assistant's tool-calling graph: generate, execute, guard, finalize, under arbitrary model replies. */
module AssistantGraph {
  import opened Wrappers
  import opened Text

  /** The tools the graph treats specially; every other tool goes by its name. */
  datatype Tool =
    | ServiceRestartTrigger | ServiceReplicasSet | DeploySyncTrigger | PromptInjectionReport
    | Other(name: string)

  datatype ToolCall = ToolCall(id: string, tool: Tool, arguments: string)

  datatype Message =
    | System(content: string)
    | User(content: string)
    | Assistant(content: string, calls: seq<ToolCall>)
    | ToolOutput(call: ToolCall, content: string)

  datatype Completion = Completion(content: string, calls: seq<ToolCall>)

  datatype Request = Request(messages: seq<Message>, tools: seq<Tool>)

  datatype ToolResult = ToolResult(tool: Tool, content: string, success: bool)

  /** Why a call has no result of its own. */
  datatype Refusal = NeedsConfirmation | NotAllowed | ToolError(error: string)

  /** Everything outside the graph: the n-th completion, the n-th executed tool, the guard's verdict on a text, and
      the wording of a failed call. */
  datatype World = World(
    complete: nat -> Result<Completion, string>, execute: nat -> Result<string, string>, guard: string -> bool,
    describe: (ToolCall, Refusal) -> string)

  datatype Ending = Answered(answer: string) | CompletionFailed(error: string) | InjectionFound(tool: Tool)

  const MAX_TOOL_ITERATIONS: nat := 3
  const LIMIT_NOTICE := "tool limit reached: answer now"
  const LIMIT_FALLBACK := "tool limit reached without an answer"
  const REJECTED := "Request was rejected by prompt injection protection."
  const EMPTY_CONTENT := "MCP tool returned empty content."

  predicate Mutating(tool: Tool) {
    tool == ServiceRestartTrigger || tool == ServiceReplicasSet || tool == DeploySyncTrigger
  }

  predicate Terminal(tool: Tool) {
    Mutating(tool) || tool == PromptInjectionReport
  }

  // ---------------------------------------------------------------- the effective tools

  /** A tool listed by a chosen capability, or a utility, passes the configured allow-list; security tools always do. */
  predicate Effective(tool: Tool, capabilities: seq<string>, profiles: map<string, seq<Tool>>, utilities: seq<Tool>,
                      allowed: set<Tool>) {
    || tool == PromptInjectionReport
    || ((allowed == {} || tool in allowed) &&
        (tool in utilities || exists c :: c in capabilities && c in profiles && tool in profiles[c]))
  }

  method EffectiveToolSet(capabilities: seq<string>, profiles: map<string, seq<Tool>>, utilities: seq<Tool>,
                          allowed: set<Tool>) returns (tools: set<Tool>)
    ensures forall tool :: tool in tools <==> Effective(tool, capabilities, profiles, utilities, allowed)
  {
    tools := {};
    for i := 0 to |capabilities|
      invariant forall tool :: tool in tools <==>
        (allowed == {} || tool in allowed) && exists c :: c in capabilities[..i] && c in profiles && tool in profiles[c]
    {
      assert capabilities[..i + 1] == capabilities[..i] + [capabilities[i]];
      if capabilities[i] in profiles {
        var listed := AllowedOf(profiles[capabilities[i]], allowed);
        tools := tools + listed;
      }
    }
    assert capabilities[..|capabilities|] == capabilities;
    var listed := AllowedOf(utilities, allowed);
    tools := tools + listed + {PromptInjectionReport};
  }

  method AllowedOf(listed: seq<Tool>, allowed: set<Tool>) returns (tools: set<Tool>)
    ensures forall tool :: tool in tools <==> tool in listed && (allowed == {} || tool in allowed)
  {
    tools := {};
    for i := 0 to |listed|
      invariant forall tool :: tool in tools <==> tool in listed[..i] && (allowed == {} || tool in allowed)
    {
      if allowed == {} || listed[i] in allowed {
        tools := tools + {listed[i]};
      }
    }
  }

  /** The tools offered to the model: defined, effective, and none that mutates; in definition order. */
  function Offered(definitions: seq<Tool>, effective: set<Tool>): (r: seq<Tool>)
    ensures forall tool :: tool in r <==> tool in definitions && tool in effective && !Mutating(tool)
  {
    if definitions == [] then []
    else
      var earlier, last := Offered(definitions[..|definitions| - 1], effective), definitions[|definitions| - 1];
      if !Mutating(last) && last in effective then earlier + [last] else earlier
  }

  /** Offering goes definition by definition. */
  lemma {:induction false} OfferedSplits(a: seq<Tool>, b: seq<Tool>, effective: set<Tool>)
    ensures Offered(a + b, effective) == Offered(a, effective) + Offered(b, effective)
  {
    if b == [] {
      assert a + b == a && Offered(a, effective) + [] == Offered(a, effective);
    } else {
      var n := |b| - 1;
      assert (a + b)[..|a + b| - 1] == a + b[..n];
      OfferedSplits(a, b[..n], effective);
    }
  }

  lemma {:induction false} OfferedOne(tool: Tool, effective: set<Tool>)
    ensures Offered([tool], effective) == if tool in effective && !Mutating(tool) then [tool] else []
  {
    assert [tool][..0] == [];
  }

  // ---------------------------------------------------------------- one round of tools

  /** The first report of an injection, if the model asked for one. */
  function FirstReport(calls: seq<ToolCall>): Option<ToolCall> {
    if calls == [] then None
    else if calls[0].tool == PromptInjectionReport then Some(calls[0])
    else FirstReport(calls[1..])
  }

  function WithoutReports(calls: seq<ToolCall>): seq<ToolCall> {
    if calls == [] then []
    else
      var rest := WithoutReports(calls[1..]);
      if calls[0].tool == PromptInjectionReport then rest else [calls[0]] + rest
  }

  /** A first report runs alone; later reports never run at all. */
  function Selected(calls: seq<ToolCall>, attempted: bool): seq<ToolCall> {
    if !attempted && FirstReport(calls).Some? then [FirstReport(calls).value] else WithoutReports(calls)
  }

  lemma {:induction false} FirstReportIsAsked(calls: seq<ToolCall>)
    ensures match FirstReport(calls)
      case Some(c) => c in calls && c.tool == PromptInjectionReport
      case None => forall c :: c in calls ==> c.tool != PromptInjectionReport
  {
    if calls != [] { FirstReportIsAsked(calls[1..]); }
  }

  predicate AsksReport(calls: seq<ToolCall>) {
    exists c :: c in calls && c.tool == PromptInjectionReport
  }

  lemma {:induction false} ReportIsAskedIff(calls: seq<ToolCall>)
    ensures FirstReport(calls).Some? == AsksReport(calls)
  {
    FirstReportIsAsked(calls);
  }

  lemma {:induction false} WithoutReportsKeepsTheRest(calls: seq<ToolCall>)
    ensures forall c :: c in WithoutReports(calls) <==> c in calls && c.tool != PromptInjectionReport
  {
    if calls != [] { WithoutReportsKeepsTheRest(calls[1..]); }
  }

  lemma SelectedIsAsked(calls: seq<ToolCall>, attempted: bool)
    ensures forall c :: c in Selected(calls, attempted) ==> c in calls
    ensures forall c :: c in Selected(calls, attempted) && c.tool == PromptInjectionReport ==>
      !attempted && Selected(calls, attempted) == [c]
  {
    FirstReportIsAsked(calls);
    WithoutReportsKeepsTheRest(calls);
  }

  /** A call the graph lets through to the tool executor. */
  predicate Permitted(call: ToolCall, effective: set<Tool>) {
    !Mutating(call.tool) && call.tool in effective
  }

  function Visible(content: string): string {
    if Trim(content) == "" then EMPTY_CONTENT else Trim(content)
  }

  /** The result of one call when n tools ran before it. */
  function ResultOf(call: ToolCall, effective: set<Tool>, world: World, n: nat): ToolResult {
    if Mutating(call.tool) then ToolResult(call.tool, Visible(world.describe(call, NeedsConfirmation)), false)
    else if call.tool !in effective then ToolResult(call.tool, Visible(world.describe(call, NotAllowed)), false)
    else
      match world.execute(n)
      case Ok(content) => ToolResult(call.tool, Visible(content), true)
      case Err(error) => ToolResult(call.tool, Visible(world.describe(call, ToolError(error))), false)
  }

  /** The calls of a round that reach their tools, in order. */
  function Ran(calls: seq<ToolCall>, effective: set<Tool>): seq<ToolCall> {
    if calls == [] then []
    else
      var earlier, last := Ran(calls[..|calls| - 1], effective), calls[|calls| - 1];
      if Permitted(last, effective) then earlier + [last] else earlier
  }

  function Results(calls: seq<ToolCall>, effective: set<Tool>, world: World, n: nat): (r: seq<ToolResult>)
    ensures |r| == |calls|
  {
    if calls == [] then []
    else
      var earlier := calls[..|calls| - 1];
      Results(earlier, effective, world, n)
        + [ResultOf(calls[|calls| - 1], effective, world, n + |Ran(earlier, effective)|)]
  }

  function Outputs(calls: seq<ToolCall>, results: seq<ToolResult>): seq<Message>
    requires |results| == |calls|
  {
    if calls == [] then []
    else
      var n := |calls| - 1;
      Outputs(calls[..n], results[..n]) + [ToolOutput(calls[n], results[n].content)]
  }

  /** What one round of tool calls changes. */
  datatype Round = Round(executed: seq<ToolCall>, results: seq<ToolResult>, messages: seq<Message>)

  function RunOne(r: Round, call: ToolCall, effective: set<Tool>, world: World): Round {
    var result := ResultOf(call, effective, world, |r.executed|);
    Round(if Permitted(call, effective) then r.executed + [call] else r.executed, r.results + [result],
          r.messages + [ToolOutput(call, result.content)])
  }

  function RunAll(calls: seq<ToolCall>, r: Round, effective: set<Tool>, world: World): Round {
    if calls == [] then r
    else RunOne(RunAll(calls[..|calls| - 1], r, effective, world), calls[|calls| - 1], effective, world)
  }

  /** One more call adds itself if it is permitted, its result and its message. */
  lemma RunOneAppends(ran: seq<ToolCall>, passed: seq<ToolCall>, results: seq<ToolResult>, before: seq<Message>,
                      outputs: seq<Message>, call: ToolCall, effective: set<Tool>, world: World)
    ensures var result := ResultOf(call, effective, world, |ran| + |passed|);
      RunOne(Round(ran + passed, results, before + outputs), call, effective, world) ==
        Round(ran + if Permitted(call, effective) then passed + [call] else passed, results + [result],
              before + (outputs + [ToolOutput(call, result.content)]))
  {
    assert ran + passed + [call] == ran + (passed + [call]);
    var output := ToolOutput(call, ResultOf(call, effective, world, |ran| + |passed|).content);
    assert before + outputs + [output] == before + (outputs + [output]);
  }

  /** A round appends the permitted calls, one result per call and one message per result. */
  lemma {:induction false} RoundAppends(calls: seq<ToolCall>, ran: seq<ToolCall>, before: seq<Message>,
                                        effective: set<Tool>, world: World)
    ensures var results := Results(calls, effective, world, |ran|);
      RunAll(calls, Round(ran, [], before), effective, world) ==
        Round(ran + Ran(calls, effective), results, before + Outputs(calls, results))
  {
    if calls == [] {
      assert before + [] == before && ran + [] == ran;
    } else {
      var n := |calls| - 1;
      RoundAppends(calls[..n], ran, before, effective, world);
      var earlier, passed := Results(calls[..n], effective, world, |ran|), Ran(calls[..n], effective);
      RunOneAppends(ran, passed, earlier, before, Outputs(calls[..n], earlier), calls[n], effective, world);
      OutputsGrow(calls, earlier, ResultOf(calls[n], effective, world, |ran| + |passed|));
    }
  }

  lemma {:induction false} OutputsGrow(calls: seq<ToolCall>, earlier: seq<ToolResult>, result: ToolResult)
    requires |calls| == |earlier| + 1
    ensures var n := |calls| - 1;
      Outputs(calls, earlier + [result]) == Outputs(calls[..n], earlier) + [ToolOutput(calls[n], result.content)]
  {
    assert (earlier + [result])[..|earlier|] == earlier;
  }

  predicate TerminalCandidate(results: seq<ToolResult>) {
    |results| == 1 && results[0].success && Terminal(results[0].tool)
  }

  /** No mutating tool succeeds inside the graph, so the only result that can end it is a report. */
  lemma {:induction false} OnlyReportsTerminate(calls: seq<ToolCall>, effective: set<Tool>, world: World, n: nat)
    ensures TerminalCandidate(Results(calls, effective, world, n)) ==>
      Results(calls, effective, world, n)[0].tool == PromptInjectionReport
  {
    if |calls| == 1 { assert Results(calls[..0], effective, world, n) == []; }
  }

  // ---------------------------------------------------------------- what a round does, call by call

  predicate Increasing(picks: seq<nat>, bound: nat) {
    && (forall j :: 0 <= j < |picks| ==> picks[j] < bound)
    && (forall i, j :: 0 <= i < j < |picks| ==> picks[i] < picks[j])
  }

  function At(calls: seq<ToolCall>, picks: seq<nat>): (r: seq<ToolCall>)
    requires Increasing(picks, |calls|)
    ensures |r| == |picks|
  {
    seq(|picks|, j requires 0 <= j < |picks| => calls[picks[j]])
  }

  /** One more call, picked or not. */
  lemma PicksGrow(calls: seq<ToolCall>, picks: seq<nat>, wanted: seq<bool>) returns (more: seq<nat>)
    requires calls != [] && |wanted| == |calls| && Increasing(picks, |calls| - 1)
    requires forall k :: 0 <= k < |calls| - 1 ==> (k in picks <==> wanted[k])
    ensures Increasing(more, |calls|) && forall k :: 0 <= k < |calls| ==> (k in more <==> wanted[k])
    ensures var n := |calls| - 1;
      At(calls, more) == At(calls[..n], picks) + if wanted[n] then [calls[n]] else []
  {
    var n := |calls| - 1;
    more := if wanted[n] then picks + [n] else picks;
    assert n !in picks;
    forall k | 0 <= k < |calls| ensures k in more <==> wanted[k] {
      assert k in more <==> k in picks || (wanted[n] && k == n);
    }
    assert At(calls, more) == At(calls[..n], picks) + if wanted[n] then [calls[n]] else [];
  }

  /** Which calls of a reply a round answers: the first report alone while none was attempted, and otherwise every call
      that is not a report, in the order asked. */
  predicate Answers(calls: seq<ToolCall>, attempted: bool, picks: seq<nat>) {
    && Increasing(picks, |calls|)
    && if !attempted && AsksReport(calls) then
         && |picks| == 1 && calls[picks[0]].tool == PromptInjectionReport
         && forall k :: 0 <= k < picks[0] ==> calls[k].tool != PromptInjectionReport
       else forall k :: 0 <= k < |calls| ==> (k in picks <==> calls[k].tool != PromptInjectionReport)
  }

  lemma {:induction false} FirstReportPicked(calls: seq<ToolCall>) returns (k: nat)
    requires AsksReport(calls)
    ensures k < |calls| && calls[k].tool == PromptInjectionReport && FirstReport(calls) == Some(calls[k])
    ensures forall i :: 0 <= i < k ==> calls[i].tool != PromptInjectionReport
  {
    k := 0;
    if calls[0].tool != PromptInjectionReport {
      var c :| c in calls && c.tool == PromptInjectionReport;
      assert calls == [calls[0]] + calls[1..] && c in calls[1..];
      var n := FirstReportPicked(calls[1..]);
      k := n + 1;
    }
  }

  lemma {:induction false} OrdinaryPicked(calls: seq<ToolCall>) returns (picks: seq<nat>)
    ensures Increasing(picks, |calls|) && WithoutReports(calls) == At(calls, picks)
    ensures forall k :: 0 <= k < |calls| ==> (k in picks <==> calls[k].tool != PromptInjectionReport)
  {
    picks := [];
    if calls != [] {
      var n := |calls| - 1;
      var earlier := OrdinaryPicked(calls[..n]);
      WithoutReportsGrows(calls[..n], calls[n]);
      assert calls[..n] + [calls[n]] == calls;
      var wanted := seq(|calls|, k requires 0 <= k < |calls| => calls[k].tool != PromptInjectionReport);
      forall k | 0 <= k < n ensures k in earlier <==> wanted[k] { assert calls[..n][k] == calls[k]; }
      picks := PicksGrow(calls, earlier, wanted);
    }
  }

  lemma {:induction false} WithoutReportsGrows(calls: seq<ToolCall>, last: ToolCall)
    ensures WithoutReports(calls + [last]) ==
      WithoutReports(calls) + if last.tool == PromptInjectionReport then [] else [last]
  {
    if calls != [] {
      WithoutReportsGrows(calls[1..], last);
      assert (calls + [last])[1..] == calls[1..] + [last];
    }
  }

  lemma SelectionAnswers(calls: seq<ToolCall>, attempted: bool) returns (picks: seq<nat>)
    ensures Answers(calls, attempted, picks) && Selected(calls, attempted) == At(calls, picks)
  {
    FirstReportIsAsked(calls);
    if !attempted && AsksReport(calls) {
      var k := FirstReportPicked(calls);
      picks := [k];
    } else {
      picks := OrdinaryPicked(calls);
    }
  }

  /** What the tool's own result, or the refusal, reads like. */
  predicate Reads(content: string, text: string) {
    content == if Trim(text) == "" then EMPTY_CONTENT else Trim(text)
  }

  predicate Runnable(call: ToolCall, effective: set<Tool>) {
    && call.tool != ServiceRestartTrigger && call.tool != ServiceReplicasSet && call.tool != DeploySyncTrigger
    && call.tool in effective
  }

  /** The result of a call: what its tool gave when it was the m-th to run, or why it was refused. */
  predicate Gives(result: ToolResult, call: ToolCall, effective: set<Tool>, world: World, m: nat) {
    && result.tool == call.tool
    && if Runnable(call, effective) then
         match world.execute(m)
         case Ok(text) => result.success && Reads(result.content, text)
         case Err(error) => !result.success && Reads(result.content, world.describe(call, ToolError(error)))
       else
         && !result.success
         && Reads(result.content, world.describe(call, if call.tool in {ServiceRestartTrigger, ServiceReplicasSet,
                                                                        DeploySyncTrigger}
                                                       then NeedsConfirmation else NotAllowed))
  }

  /** How many of the first k calls run. */
  function Runs(calls: seq<ToolCall>, k: nat, effective: set<Tool>): nat
    requires k <= |calls|
  {
    if k == 0 then 0 else Runs(calls, k - 1, effective) + if Runnable(calls[k - 1], effective) then 1 else 0
  }

  /** Call k of the round got its result and its message. */
  predicate CallGives(calls: seq<ToolCall>, k: nat, start: Round, after: Round, effective: set<Tool>, world: World)
    requires k < |calls| <= |after.results| && |start.messages| + |calls| <= |after.messages|
  {
    && Gives(after.results[k], calls[k], effective, world, |start.executed| + Runs(calls, k, effective))
    && after.messages[|start.messages| + k] == ToolOutput(calls[k], after.results[k].content)
  }

  /** Each call gets one result and one message, in order. */
  predicate CallsGive(calls: seq<ToolCall>, start: Round, after: Round, effective: set<Tool>, world: World) {
    && |after.results| == |calls| && |after.messages| == |start.messages| + |calls|
    && after.messages[..|start.messages|] == start.messages
    && forall k :: 0 <= k < |calls| ==> CallGives(calls, k, start, after, effective, world)
  }

  /** The calls that may run reach their tools, in order, and no others. */
  ghost predicate CallsRun(calls: seq<ToolCall>, before: seq<ToolCall>, after: seq<ToolCall>, effective: set<Tool>) {
    exists ran :: Increasing(ran, |calls|) && after == before + At(calls, ran)
                  && forall k :: 0 <= k < |calls| ==> (k in ran <==> Runnable(calls[k], effective))
  }

  ghost predicate RoundOf(calls: seq<ToolCall>, start: Round, after: Round, effective: set<Tool>, world: World) {
    && CallsGive(calls, start, after, effective, world)
    && CallsRun(calls, start.executed, after.executed, effective)
  }

  lemma {:induction false} RunAllIsRound(calls: seq<ToolCall>, start: Round, effective: set<Tool>, world: World)
    requires start.results == []
    ensures RoundOf(calls, start, RunAll(calls, start, effective, world), effective, world)
    ensures |RunAll(calls, start, effective, world).executed| == |start.executed| + Runs(calls, |calls|, effective)
  {
    if calls == [] {
      assert Increasing([], 0) && start.executed + At(calls, []) == start.executed;
      assert start.messages[..|start.messages|] == start.messages;
    } else {
      var n := |calls| - 1;
      var before := RunAll(calls[..n], start, effective, world);
      RunAllIsRound(calls[..n], start, effective, world);
      RunsOfPrefix(calls, n, n, effective);
      GivesOneMore(calls, start, before, effective, world);
      RunsOneMore(calls, start.executed, before.executed, effective);
    }
  }

  lemma {:induction false} RunsOfPrefix(calls: seq<ToolCall>, n: nat, k: nat, effective: set<Tool>)
    requires k <= n <= |calls|
    ensures Runs(calls[..n], k, effective) == Runs(calls, k, effective)
  {
    if k > 0 { RunsOfPrefix(calls, n, k - 1, effective); }
  }

  lemma RunOneAdds(before: Round, call: ToolCall, effective: set<Tool>, world: World) returns (result: ToolResult)
    ensures Gives(result, call, effective, world, |before.executed|)
    ensures var after := RunOne(before, call, effective, world);
      && after.results == before.results + [result]
      && after.messages == before.messages + [ToolOutput(call, result.content)]
  {
    result := ResultOf(call, effective, world, |before.executed|);
  }

  lemma EarlierStillGives(calls: seq<ToolCall>, k: nat, start: Round, before: Round, after: Round, effective: set<Tool>,
                          world: World)
    requires k < |calls| - 1 && CallsGive(calls[..|calls| - 1], start, before, effective, world)
    requires |after.results| == |calls| && after.results[..|calls| - 1] == before.results
    requires |after.messages| == |before.messages| + 1 && after.messages[..|before.messages|] == before.messages
    ensures CallGives(calls, k, start, after, effective, world)
  {
    var n := |calls| - 1;
    RunsOfPrefix(calls, n, k, effective);
    var result, call, m := after.results[k], calls[k], |start.executed| + Runs(calls, k, effective);
    assert before.results[k] == result && before.messages[|start.messages| + k] == after.messages[|start.messages| + k];
    assert Gives(result, call, effective, world, m) by {
      assert CallGives(calls[..n], k, start, before, effective, world);
      assert calls[..n][k] == call && Runs(calls[..n], k, effective) == Runs(calls, k, effective);
    }
    assert CallGives(calls[..n], k, start, before, effective, world);
  }

  lemma {:induction false} GivesOneMore(calls: seq<ToolCall>, start: Round, before: Round, effective: set<Tool>,
                                        world: World)
    requires calls != [] && CallsGive(calls[..|calls| - 1], start, before, effective, world)
    requires |before.executed| == |start.executed| + Runs(calls, |calls| - 1, effective)
    ensures CallsGive(calls, start, RunOne(before, calls[|calls| - 1], effective, world), effective, world)
  {
    var n := |calls| - 1;
    var after := RunOne(before, calls[n], effective, world);
    var result := RunOneAdds(before, calls[n], effective, world);
    forall k | 0 <= k < |calls| ensures CallGives(calls, k, start, after, effective, world) {
      if k < n { EarlierStillGives(calls, k, start, before, after, effective, world); }
    }
    assert after.messages[..|start.messages|] == before.messages[..|start.messages|];
  }

  lemma RunsOneMore(calls: seq<ToolCall>, start: seq<ToolCall>, before: seq<ToolCall>, effective: set<Tool>)
    requires calls != [] && CallsRun(calls[..|calls| - 1], start, before, effective)
    ensures var call := calls[|calls| - 1];
      CallsRun(calls, start, if Permitted(call, effective) then before + [call] else before, effective)
  {
    var n := |calls| - 1;
    var after := if Permitted(calls[n], effective) then before + [calls[n]] else before;
    var ran :| Increasing(ran, n) && before == start + At(calls[..n], ran)
               && forall k :: 0 <= k < n ==> (k in ran <==> Runnable(calls[..n][k], effective));
    var wanted := seq(|calls|, k requires 0 <= k < |calls| => Runnable(calls[k], effective));
    forall k | 0 <= k < n ensures k in ran <==> wanted[k] { assert calls[..n][k] == calls[k]; }
    var more := PicksGrow(calls, ran, wanted);
    assert after == start + At(calls, more);
  }

  /** A round over the calls of a reply that are to be answered. */
  ghost predicate AnswersRound(calls: seq<ToolCall>, attempted: bool, start: Round, after: Round, effective: set<Tool>,
                               world: World) {
    exists picks :: Answers(calls, attempted, picks) && RoundOf(At(calls, picks), start, after, effective, world)
  }

  lemma {:induction false} SelectionIsRound(calls: seq<ToolCall>, attempted: bool, start: Round, effective: set<Tool>,
                                            world: World)
    requires start.results == []
    ensures AnswersRound(calls, attempted, start, RunAll(Selected(calls, attempted), start, effective, world),
                         effective, world)
  {
    var picks := SelectionAnswers(calls, attempted);
    RunAllIsRound(At(calls, picks), start, effective, world);
  }

  /** The only result of the round is a report that its tool accepted. */
  predicate OneReport(results: seq<ToolResult>) {
    |results| == 1 && results[0].success && results[0].tool == PromptInjectionReport
  }

  /** The first result that fails the guard is the k-th. */
  predicate FirstGuarded(results: seq<ToolResult>, world: World, k: nat) {
    && k < |results| && world.guard(results[k].content)
    && forall j :: 0 <= j < k ==> !world.guard(results[j].content)
  }

  // ---------------------------------------------------------------- what holds throughout

  /** Every tool output passed the guard. */
  predicate Cleared(messages: seq<Message>, world: World) {
    forall m :: m in messages && m.ToolOutput? ==> !world.guard(m.content)
  }

  predicate Harmless(tools: seq<Tool>, effective: set<Tool>) {
    forall t :: t in tools ==> t in effective && !Mutating(t)
  }

  predicate Proper(request: Request, effective: set<Tool>, world: World) {
    Cleared(request.messages, world) && Harmless(request.tools, effective)
  }

  function Reports(calls: seq<ToolCall>): nat {
    if calls == [] then 0
    else Reports(calls[..|calls| - 1]) + if calls[|calls| - 1].tool == PromptInjectionReport then 1 else 0
  }

  lemma {:induction false} ReportsAdd(a: seq<ToolCall>, b: seq<ToolCall>)
    ensures Reports(a + b) == Reports(a) + Reports(b)
  {
    if b == [] {
      assert a + b == a;
    } else {
      assert (a + b)[..|a + b| - 1] == a + b[..|b| - 1];
      ReportsAdd(a, b[..|b| - 1]);
    }
  }

  lemma {:induction false} ReportsAtMost(calls: seq<ToolCall>)
    ensures (forall c :: c in calls ==> c.tool != PromptInjectionReport) ==> Reports(calls) == 0
    ensures Reports(calls) <= |calls|
  {
    if calls != [] { ReportsAtMost(calls[..|calls| - 1]); }
  }

  lemma {:induction false} RanArePermitted(calls: seq<ToolCall>, effective: set<Tool>)
    ensures |Ran(calls, effective)| <= |calls|
    ensures forall c :: c in Ran(calls, effective) <==> c in calls && Permitted(c, effective)
  {
    if calls != [] { RanArePermitted(calls[..|calls| - 1], effective); }
  }

  lemma {:induction false} SelectedReports(calls: seq<ToolCall>, attempted: bool, effective: set<Tool>)
    ensures Reports(Ran(Selected(calls, attempted), effective)) <=
      if attempted || FirstReport(calls).None? then 0 else 1
  {
    var chosen := Selected(calls, attempted);
    ReportsAtMost(Ran(chosen, effective));
    RanArePermitted(chosen, effective);
    SelectedIsAsked(calls, attempted);
    FirstReportIsAsked(calls);
  }

  /** Every call comes from a reply of the model. */
  ghost predicate AskedFor(calls: seq<ToolCall>, replies: seq<Completion>) {
    forall c :: c in calls ==> exists reply :: reply in replies && c in reply.calls
  }

  /** The executed calls were asked for and permitted, and at most one reported an injection. */
  ghost predicate RanSafely(executed: seq<ToolCall>, replies: seq<Completion>, attempted: bool, effective: set<Tool>) {
    && AskedFor(executed, replies)
    && (forall c :: c in executed ==> Permitted(c, effective))
    && Reports(executed) <= if attempted then 1 else 0
  }

  lemma {:induction false} RoundRunsSafely(executed: seq<ToolCall>, pending: seq<ToolCall>,
                                           replies: seq<Completion>, attempted: bool,
                        before: seq<Message>, effective: set<Tool>, world: World)
    requires RanSafely(executed, replies, attempted, effective) && AskedFor(pending, replies)
    ensures var round := RunAll(Selected(pending, attempted), Round(executed, [], before), effective, world);
      RanSafely(round.executed, replies, attempted || FirstReport(pending).Some?, effective)
  {
    var chosen := Selected(pending, attempted);
    var ran := Ran(chosen, effective);
    RoundAppends(chosen, executed, before, effective, world);
    SelectedReports(pending, attempted, effective);
    ReportsAdd(executed, ran);
    SelectedIsAsked(pending, attempted);
    RanArePermitted(chosen, effective);
    forall c | c in ran ensures exists reply :: reply in replies && c in reply.calls { assert c in pending; }
  }

  lemma {:induction false} OutputsAreResults(calls: seq<ToolCall>, results: seq<ToolResult>, world: World)
    requires |calls| == |results| && forall r :: r in results ==> !world.guard(r.content)
    ensures Cleared(Outputs(calls, results), world)
  {
    if calls != [] { OutputsAreResults(calls[..|calls| - 1], results[..|calls| - 1], world); }
  }

  /** A round whose results all pass the guard adds only outputs that do. */
  lemma {:induction false} RoundClears(calls: seq<ToolCall>, start: Round, effective: set<Tool>, world: World)
    requires start.results == [] && Cleared(start.messages, world)
    requires forall r :: r in RunAll(calls, start, effective, world).results ==> !world.guard(r.content)
    ensures Cleared(RunAll(calls, start, effective, world).messages, world)
  {
    RoundAppends(calls, start.executed, start.messages, effective, world);
    OutputsAreResults(calls, Results(calls, effective, world, |start.executed|), world);
  }

  lemma {:induction false} SuccessRan(calls: seq<ToolCall>, effective: set<Tool>, world: World, n: nat)
    requires |calls| == 1 && Results(calls, effective, world, n)[0].success
    ensures Ran(calls, effective) == calls
    ensures Results(calls, effective, world, n)[0].tool == PromptInjectionReport ==> Reports(calls) == 1
  {
    assert calls == [calls[0]] && calls[..0] == [];
    assert Results(calls[..0], effective, world, n) == [] && Ran(calls[..0], effective) == [];
    assert Reports(calls[..0]) == 0;
  }

  /** A round that may end the graph ran exactly one tool, the report. */
  lemma {:induction false} TerminalRoundReports(calls: seq<ToolCall>, start: Round, effective: set<Tool>, world: World)
    requires start.results == [] && TerminalCandidate(RunAll(calls, start, effective, world).results)
    ensures var round := RunAll(calls, start, effective, world);
      round.results[0].tool == PromptInjectionReport && Reports(round.executed) == Reports(start.executed) + 1
  {
    RoundAppends(calls, start.executed, start.messages, effective, world);
    OnlyReportsTerminate(calls, effective, world, |start.executed|);
    SuccessRan(calls, effective, world, |start.executed|);
    ReportsAdd(start.executed, Ran(calls, effective));
  }

  /** The first three requests carry the offered tools, later ones none. */
  predicate OffersThrice(requests: seq<Request>, offered: seq<Tool>) {
    forall k :: 0 <= k < |requests| ==> requests[k].tools == if k < 3 then offered else []
  }

  lemma OneMoreRequest(before: seq<Request>, after: seq<Request>, offered: seq<Tool>)
    requires OffersThrice(before, offered) && |after| == |before| + 1 && before <= after
    requires after[|before|].tools == if |before| < 3 then offered else []
    ensures OffersThrice(after, offered)
  {
    forall k | 0 <= k < |before| ensures after[k] == before[k] {}
  }

  /** The graph's execution state with the requests sent, the replies received and the calls that reached a tool. */
  class Execution {
    const effective: set<Tool>
    const definitions: seq<Tool>
    const world: World
    var modelMessages: seq<Message>
    var pendingToolCalls: seq<ToolCall>
    var lastToolResults: seq<ToolResult>
    var toolIterations: nat
    var answer: string
    var terminalTool: Option<Tool>
    var securityReportAttempted: bool
    var requests: seq<Request>
    var replies: seq<Completion>
    var executed: seq<ToolCall>

    constructor (effective: set<Tool>, definitions: seq<Tool>, world: World, messages: seq<Message>)
      requires forall m :: m in messages ==> !m.ToolOutput?
      ensures this.effective == effective && this.definitions == definitions && this.world == world
      ensures modelMessages == messages && pendingToolCalls == [] && toolIterations == 0
      ensures terminalTool == None && !securityReportAttempted && requests == [] && replies == [] && executed == []
      ensures Safe() && Cleared(modelMessages, world)
    {
      this.effective, this.definitions, this.world := effective, definitions, world;
      modelMessages, pendingToolCalls, lastToolResults, toolIterations := messages, [], [], 0;
      answer, terminalTool, securityReportAttempted := "", None, false;
      requests, replies, executed := [], [], [];
    }

    /** What no model reply can break. */
    ghost predicate Safe()
      reads this
    {
      && toolIterations <= MAX_TOOL_ITERATIONS
      && (forall r :: r in requests ==> Proper(r, effective, world))
      && AskedFor(pendingToolCalls, replies)
      && RanSafely(executed, replies, securityReportAttempted, effective)
    }

    /** Asks the model; once the tool limit is reached no tools are offered and tool calls are ignored. */
    method GenerateAnswer() returns (failed: Option<string>)
      requires Safe() && Cleared(modelMessages, world) && |requests| == toolIterations
      modifies this
      ensures Safe() && Cleared(modelMessages, world) && |requests| == old(|requests|) + 1
      ensures toolIterations == old(toolIterations) && executed == old(executed) && terminalTool == old(terminalTool)
      ensures securityReportAttempted == old(securityReportAttempted)
      ensures old(requests) <= requests && requests[old(|requests|)].tools ==
        if toolIterations == MAX_TOOL_ITERATIONS then [] else Offered(definitions, effective)
      ensures requests[old(|requests|)].messages ==
        old(modelMessages) + if toolIterations == MAX_TOOL_ITERATIONS then [System(LIMIT_NOTICE)] else []
      ensures match world.complete(old(|requests|))
        case Err(error) => failed == Some(error)
        case Ok(completion) =>
          && failed == None && replies == old(replies) + [completion]
          && (completion.calls == [] || toolIterations == MAX_TOOL_ITERATIONS ==>
                && pendingToolCalls == [] && modelMessages == old(modelMessages)
                && answer == if Trim(completion.content) == "" && toolIterations == MAX_TOOL_ITERATIONS
                             then LIMIT_FALLBACK else Trim(completion.content))
          && (completion.calls != [] && toolIterations < MAX_TOOL_ITERATIONS ==>
                && pendingToolCalls == completion.calls
                && modelMessages == old(modelMessages) + [Assistant(completion.content, completion.calls)])
    {
      var requestMessages := modelMessages;
      var toolLimitReached := toolIterations >= MAX_TOOL_ITERATIONS;
      var requestTools: seq<Tool> := [];
      if toolLimitReached {
        requestMessages := requestMessages + [System(LIMIT_NOTICE)];
      } else {
        requestTools := Offered(definitions, effective);
      }
      var completion := world.complete(|requests|);
      requests := requests + [Request(requestMessages, requestTools)];
      if completion.Err? {
        return Some(completion.error);
      }
      replies := replies + [completion.value];
      failed := None;
      if completion.value.calls == [] || toolLimitReached {
        answer := Trim(completion.value.content);
        if answer == "" && toolLimitReached {
          answer := LIMIT_FALLBACK;
        }
        pendingToolCalls := [];
        return;
      }
      modelMessages := modelMessages + [Assistant(completion.value.content, completion.value.calls)];
      pendingToolCalls := completion.value.calls;
      assert completion.value in replies;
    }

    /** Runs the selected calls of one round; refused and failing calls report their error instead. SelectionIsRound
        says what that means call by call. */
    method ExecuteMCP()
      requires Safe() && Cleared(modelMessages, world) && toolIterations < MAX_TOOL_ITERATIONS
      modifies this
      ensures Safe() && toolIterations == old(toolIterations) + 1
      ensures requests == old(requests) && replies == old(replies)
      ensures terminalTool == old(terminalTool) && pendingToolCalls == []
      ensures Progress() == RunAll(old(Selected(pendingToolCalls, securityReportAttempted)),
                                   old(Round(executed, [], modelMessages)), effective, world)
      ensures securityReportAttempted == (old(securityReportAttempted) || AsksReport(old(pendingToolCalls)))
    {
      lastToolResults := [];
      toolIterations := toolIterations + 1;
      var toolCalls := Selected(pendingToolCalls, securityReportAttempted);
      RoundRunsSafely(executed, pendingToolCalls, replies, securityReportAttempted, modelMessages, effective, world);
      ReportIsAskedIff(pendingToolCalls);
      securityReportAttempted := securityReportAttempted || FirstReport(pendingToolCalls).Some?;
      pendingToolCalls := [];
      RunToolCalls(toolCalls);
    }

    ghost function Progress(): Round
      reads this
    {
      Round(executed, lastToolResults, modelMessages)
    }

    method RunToolCalls(toolCalls: seq<ToolCall>)
      modifies this`executed, this`lastToolResults, this`modelMessages
      ensures Progress() == RunAll(toolCalls, old(Progress()), effective, world)
    {
      for i := 0 to |toolCalls|
        invariant Progress() == RunAll(toolCalls[..i], old(Progress()), effective, world)
      {
        assert toolCalls[..i + 1][..i] == toolCalls[..i];
        RunToolCall(toolCalls[i]);
      }
      assert toolCalls[..|toolCalls|] == toolCalls;
    }

    method RunToolCall(call: ToolCall)
      modifies this`executed, this`lastToolResults, this`modelMessages
      ensures Progress() == RunOne(old(Progress()), call, effective, world)
    {
      var content, success := "", false;
      if Mutating(call.tool) {
        content := world.describe(call, NeedsConfirmation);
      } else if call.tool !in effective {
        content := world.describe(call, NotAllowed);
      } else {
        var ran := world.execute(|executed|);
        executed := executed + [call];
        success := ran.Ok?;
        content := if ran.Ok? then ran.value else world.describe(call, ToolError(ran.error));
      }
      content := Visible(content);
      modelMessages := modelMessages + [ToolOutput(call, content)];
      lastToolResults := lastToolResults + [ToolResult(call.tool, content, success)];
    }

    /** The first tool result that fails the guard stops the graph. */
    method GuardMCPResults() returns (injected: Option<Tool>)
      ensures injected == None <==> forall r :: r in lastToolResults ==> !world.guard(r.content)
      ensures injected.Some? ==>
        exists k: nat :: FirstGuarded(lastToolResults, world, k) && lastToolResults[k].tool == injected.value
    {
      for i := 0 to |lastToolResults|
        invariant forall k :: 0 <= k < i ==> !world.guard(lastToolResults[k].content)
      {
        if world.guard(lastToolResults[i].content) {
          assert FirstGuarded(lastToolResults, world, i);
          return Some(lastToolResults[i].tool);
        }
      }
      injected := None;
    }

    method FinalizeTerminalResult()
      requires Safe()
      modifies this`answer, this`terminalTool
      ensures Safe()
      ensures if TerminalCandidate(lastToolResults) && lastToolResults[0].tool == PromptInjectionReport
              then answer == REJECTED && terminalTool == Some(PromptInjectionReport)
              else answer == old(answer) && terminalTool == old(terminalTool)
    {
      if !TerminalCandidate(lastToolResults) {
        return;
      }
      if lastToolResults[0].tool == PromptInjectionReport {
        answer, terminalTool := REJECTED, Some(PromptInjectionReport);
      }
    }

    /** One turn of the graph: a completion, and unless it answers, a guarded round of tools. */
    method Turn() returns (ending: Option<Ending>)
      requires Safe() && Cleared(modelMessages, world) && |requests| == toolIterations && terminalTool == None
      modifies this
      ensures Safe() && |requests| == old(|requests|) + 1 && old(requests) <= requests
      ensures requests[old(|requests|)].tools ==
        if old(toolIterations) == MAX_TOOL_ITERATIONS then [] else Offered(definitions, effective)
      ensures old(toolIterations) == MAX_TOOL_ITERATIONS ==> ending.Some?
      ensures ending == None ==>
        Cleared(modelMessages, world) && toolIterations == old(toolIterations) + 1 && terminalTool == None
      ensures ending.Some? ==> EndsProperly(ending.value)
      ensures world.complete(old(|requests|)).Ok? ==> var reply := world.complete(old(|requests|)).value;
        if reply.calls == [] || old(toolIterations) == MAX_TOOL_ITERATIONS then
          executed == old(executed) && ending == Some(Answered(answer))
        else
          && AnswersRound(reply.calls, old(securityReportAttempted),
                          Round(old(executed), [], old(modelMessages) + [Assistant(reply.content, reply.calls)]),
                          Progress(), effective, world)
          && ((ending.Some? && ending.value.InjectionFound?) <==>
                exists r :: r in lastToolResults && world.guard(r.content))
          && ((forall r :: r in lastToolResults ==> !world.guard(r.content)) ==>
                ending == if OneReport(lastToolResults) then Some(Answered(REJECTED)) else None)
      ensures world.complete(old(|requests|)).Err? ==>
        ending == Some(CompletionFailed(world.complete(old(|requests|)).error)) && executed == old(executed)
    {
      var failed := GenerateAnswer();
      if failed.Some? {
        return Some(CompletionFailed(failed.value));
      }
      if pendingToolCalls == [] {
        return Some(Answered(answer));
      }
      ghost var chosen := Selected(pendingToolCalls, securityReportAttempted);
      ghost var start := Round(executed, [], modelMessages);
      SelectionIsRound(pendingToolCalls, securityReportAttempted, start, effective, world);
      ExecuteMCP();
      var injected := GuardMCPResults();
      if injected.Some? {
        return Some(InjectionFound(injected.value));
      }
      if TerminalCandidate(lastToolResults) {
        TerminalRoundReports(chosen, start, effective, world);
        FinalizeTerminalResult();
        return Some(Answered(answer));
      }
      RoundClears(chosen, start, effective, world);
      ending := None;
    }

    /** A failure is the model's. An answer is the fixed reply to an accepted report, or what the model said without
        asking for tools or when it may no longer ask; an injection names the first result that fails the guard. */
    ghost predicate EndsProperly(ending: Ending)
      reads this
    {
      && requests != []
      && var reply := world.complete(|requests| - 1);
      match ending
      case Answered(text) =>
        && text == answer
        && if terminalTool.Some? then text == REJECTED && Reports(executed) == 1 && OneReport(lastToolResults)
           else
             && reply.Ok? && (reply.value.calls == [] || |requests| == MAX_TOOL_ITERATIONS + 1)
             && text == (if Trim(reply.value.content) == "" && |requests| == MAX_TOOL_ITERATIONS + 1 then LIMIT_FALLBACK
                         else Trim(reply.value.content))
      case CompletionFailed(error) => terminalTool == None && reply == Err(error)
      case InjectionFound(tool) =>
        exists k: nat :: FirstGuarded(lastToolResults, world, k) && lastToolResults[k].tool == tool
    }

    /** For every model, tool and guard behaviour the graph ends, within four completions and three tool rounds, the
        fourth completion without any tools; it never ran a mutating or ineffective tool, nor more than one report; and
        no request carried a tool output that fails the guard. */
    method Run() returns (ending: Ending)
      requires Safe() && Cleared(modelMessages, world) && requests == [] && toolIterations == 0 && terminalTool == None
      modifies this
      ensures Safe() && 1 <= |requests| <= 4
      ensures OffersThrice(requests, Offered(definitions, effective))
      ensures EndsProperly(ending)
    {
      ghost var sent := requests;
      var ended := Turn();
      OneMoreRequest(sent, requests, Offered(definitions, effective));
      while ended == None
        invariant Safe() && (ended.Some? ==> EndsProperly(ended.value))
        invariant 1 <= |requests| <= MAX_TOOL_ITERATIONS + 1
        invariant ended == None ==>
          Cleared(modelMessages, world) && |requests| == toolIterations && terminalTool == None
        invariant |requests| == MAX_TOOL_ITERATIONS + 1 ==> ended.Some?
        invariant OffersThrice(requests, Offered(definitions, effective))
        decreases MAX_TOOL_ITERATIONS + 1 - |requests|
      {
        sent := requests;
        ended := Turn();
        OneMoreRequest(sent, requests, Offered(definitions, effective));
      }
      ending := ended.value;
    }
  }
}
