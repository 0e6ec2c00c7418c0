// The interactive query loop of the multi-agent system: start-up checks, then one turn per
// input line. A turn asks the router agent for a two-flag decision, runs exactly one of
// the three answering setups, and prints the answer followed by a separator line.
module QueryLoop {
  import opened Wrappers
  import opened PyValues
  import opened Text
  import VectorStore
  import Tools

  // ---------------------------------------------------------------- routing

  /** `RoutingDecision(vector_search=..., web_search=...)`. */
  datatype RoutingDecision = RoutingDecision(vectorSearch: bool, webSearch: bool)

  /** The `data` of a router result: a routing decision, or anything else. */
  datatype RouterData = Decision(decision: RoutingDecision) | OtherData

  /**
   * What `router_agent.run(query)` does: raise an `Exception`, be interrupted (Ctrl+C,
   * which `except Exception` does not catch), or return a result, None standing for a
   * falsy result.
   */
  datatype RouterRun = RouterRaises(message: string) | RouterInterrupted | RouterReturns(result: Option<RouterData>)

  /** The decision a turn acts on; the default `{false, false}` unless the router returned a decision. */
  function EffectiveDecision(run: RouterRun): (d: RoutingDecision)
    ensures !(d.vectorSearch && d.webSearch)
  {
    match run
    case RouterReturns(Some(Decision(decision))) =>
      if decision.vectorSearch && decision.webSearch then decision.(webSearch := false) else decision
    case _ => RoutingDecision(false, false)
  }

  /**
   * Both flags set collapses to vector search only; a decision with at most one flag is
   * taken as it is; a failing router or any other answer gives the no-search default.
   */
  lemma EffectiveDecisionCases(run: RouterRun)
    ensures (run.RouterReturns? && run.result.Some? && run.result.value.Decision?) ==>
      var given := run.result.value.decision;
      EffectiveDecision(run) == (if given.vectorSearch && given.webSearch then RoutingDecision(true, false) else given)
    ensures !(run.RouterReturns? && run.result.Some? && run.result.value.Decision?) ==>
      EffectiveDecision(run) == RoutingDecision(false, false)
  {
  }

  /** The three ways a turn can be answered. */
  datatype Branch = VectorBranch | WebBranch | DirectBranch

  /** Vector search wins, then web search, else a direct answer. */
  function BranchFor(d: RoutingDecision): Branch
  {
    if d.vectorSearch then VectorBranch else if d.webSearch then WebBranch else DirectBranch
  }

  /** The `agent_used` name of each branch. */
  function AgentName(b: Branch): string
  {
    match b
    case VectorBranch => "RAG Agent (Vector Search)"
    case WebBranch => "Web Search Agent"
    case DirectBranch => "Direct Answer Agent"
  }

  /** The routing outcome seen from the branch: which agent a router answer sends the query to. */
  lemma RouterChoosesAgent(run: RouterRun)
    ensures BranchFor(EffectiveDecision(run)) == VectorBranch <==>
      run.RouterReturns? && run.result.Some? && run.result.value.Decision? && run.result.value.decision.vectorSearch
    ensures BranchFor(EffectiveDecision(run)) == WebBranch <==>
      run.RouterReturns? && run.result.Some? && run.result.value.Decision? &&
      !run.result.value.decision.vectorSearch && run.result.value.decision.webSearch
  {
  }

  // ---------------------------------------------------------------- answers

  /**
   * What the chosen agent's `run` does: return a result (None when the result or its
   * `data` is falsy), raise an `Exception`, or be interrupted.
   */
  datatype AgentRun = RunReturns(data: Option<string>) | RunRaises(message: string) | RunInterrupted

  /** `final_answer` after the execution step, for a run that was not interrupted. */
  function FinalAnswer(b: Branch, run: AgentRun): (a: Option<string>)
    requires !run.RunInterrupted?
  {
    match run
    case RunReturns(data) => data
    case RunRaises(_) => Some("Error processing request via " + AgentName(b) + ". Please check logs.")
  }

  /** What step 3 prints for the answer: the stripped answer when it is non-empty, else the sentinel. */
  function Render(agentUsed: string, finalAnswer: Option<string>): string
  {
    if finalAnswer.Some? && finalAnswer.value != [] then Strip(finalAnswer.value)
    else "<" + agentUsed + " could not generate a response.>"
  }

  /** `"\n" + "=" * 70 + "\n"`. */
  const SeparatorLine: string := "\n" + Repeat('=', 70) + "\n"

  /** The separator is 70 '=' between two line breaks. */
  lemma SeparatorShape()
    ensures |SeparatorLine| == 72 && SeparatorLine[0] == '\n' && SeparatorLine[71] == '\n'
    ensures forall k :: 1 <= k <= 70 ==> SeparatorLine[k] == '='
  {
    var rule := Repeat('=', 70);
    assert forall k :: 1 <= k <= 70 ==> SeparatorLine[k] == rule[k - 1];
  }

  /**
   * A failing run is answered with the fixed error sentence naming the branch's agent, and
   * that sentence is printed as it is.
   */
  lemma FailureAnswer(b: Branch, message: string)
    ensures var answer := "Error processing request via " + AgentName(b) + ". Please check logs.";
      FinalAnswer(b, RunRaises(message)) == Some(answer) && Render(AgentName(b), Some(answer)) == answer
  {
    var answer := "Error processing request via " + AgentName(b) + ". Please check logs.";
    assert answer[0] == 'E' && answer[|answer| - 1] == '.';
    StripByKeeps(answer, IsWhitespace);
  }

  /**
   * The printed answer: a non-empty answer is printed stripped (so printing it again would
   * not change it), and a missing or empty answer gives the sentinel naming the agent.
   */
  lemma RenderCases(agentUsed: string, finalAnswer: Option<string>)
    ensures finalAnswer.Some? && finalAnswer.value != [] ==>
      Render(agentUsed, finalAnswer) == Strip(finalAnswer.value) && Strip(Render(agentUsed, finalAnswer)) == Render(agentUsed, finalAnswer)
    ensures finalAnswer.None? || finalAnswer.value == [] ==>
      Render(agentUsed, finalAnswer) == "<" + agentUsed + " could not generate a response.>"
  {
    if finalAnswer.Some? && finalAnswer.value != [] {
      StripIdempotent(finalAnswer.value);
    }
  }

  /** How one turn ended: interrupted (the loop stops), or answered by the named agent. */
  datatype TurnOutcome = Interrupted | Answered(agentUsed: string, finalAnswer: Option<string>)

  function TurnResult(routerRun: RouterRun, agentRun: AgentRun): TurnOutcome
  {
    if routerRun.RouterInterrupted? || agentRun.RunInterrupted? then Interrupted
    else
      var b := BranchFor(EffectiveDecision(routerRun));
      Answered(AgentName(b), FinalAnswer(b, agentRun))
  }

  /** What a turn prints: nothing when interrupted, else the rendered answer and the separator. */
  function TurnOutput(outcome: TurnOutcome): seq<string>
  {
    match outcome
    case Interrupted => []
    case Answered(agentUsed, finalAnswer) => [Render(agentUsed, finalAnswer), SeparatorLine]
  }

  /**
   * A turn that is not interrupted never propagates the agent's failure: it is always
   * answered, by the agent of the routed branch, and its output ends with the separator.
   */
  lemma TurnAlwaysAnswers(routerRun: RouterRun, agentRun: AgentRun)
    requires !routerRun.RouterInterrupted? && !agentRun.RunInterrupted?
    ensures TurnResult(routerRun, agentRun).Answered?
    ensures TurnResult(routerRun, agentRun).agentUsed == AgentName(BranchFor(EffectiveDecision(routerRun)))
    ensures agentRun.RunRaises? ==>
      TurnResult(routerRun, agentRun).finalAnswer == Some("Error processing request via " + TurnResult(routerRun, agentRun).agentUsed + ". Please check logs.")
    ensures |TurnOutput(TurnResult(routerRun, agentRun))| == 2 && TurnOutput(TurnResult(routerRun, agentRun))[1] == SeparatorLine
  {
  }

  // ---------------------------------------------------------------- agents

  /** The agent's configuration at the moment one of its runs started. */
  datatype RunConfig = RunConfig(query: string, tools: seq<Tools.Tool>, systemPrompt: string, autoExecuteTools: bool,
                                 deps: Option<Tools.RagDeps>)

  /** The parts of a pydantic-ai agent that the loop reads and reassigns, plus the log of its runs. */
  class Agent {
    var tools: seq<Tools.Tool>
    var systemPrompt: string
    var autoExecuteTools: bool
    ghost var runs: seq<RunConfig>

    constructor (tools: seq<Tools.Tool>, systemPrompt: string, autoExecuteTools: bool)
      ensures this.tools == tools && this.systemPrompt == systemPrompt && this.autoExecuteTools == autoExecuteTools
      ensures runs == []
    {
      this.tools := tools;
      this.systemPrompt := systemPrompt;
      this.autoExecuteTools := autoExecuteTools;
      runs := [];
    }

    /** Start `agent.run(query, deps=...)`: its outcome is an input of the model, its configuration is logged. */
    method Run(query: string, deps: Option<Tools.RagDeps>)
      modifies this`runs
      ensures runs == old(runs) + [RunConfig(query, tools, systemPrompt, autoExecuteTools, deps)]
    {
      runs := runs + [RunConfig(query, tools, systemPrompt, autoExecuteTools, deps)];
    }
  }

  /** The prompt the direct branch puts on the web search agent for the duration of its run. */
  const DirectPrompt: string :=
    "As an AI assistant, answer concisely based on general knowledge. Do not mention searching or tools."

  /** One input event: a line typed with what the router and the chosen agent will do, end of input, or Ctrl+C. */
  datatype InputEvent = Line(text: string, routerRun: RouterRun, agentRun: AgentRun) | EndOfInput | KeyboardInterrupt

  /** How the loop treats a typed line. */
  datatype LineKind = Quit | Blank | Query(query: string)

  /** Strip the line, then sort it: "quit" in any letter case, empty, or a query. */
  function Classify(text: string): LineKind
  {
    var query := Strip(text);
    if Lower(query) == "quit" then Quit else if query == [] then Blank else Query(query)
  }

  /**
   * "quit" in any letter case ends the loop, even with whitespace around it; an empty or
   * all-whitespace line is skipped; anything else is routed as its stripped text.
   */
  lemma ClassifyCases(text: string)
    ensures Classify(text) == Quit <==> Lower(Strip(text)) == "quit"
    ensures Classify(text) == Blank <==> Strip(text) == []
    ensures Classify(text).Query? ==>
      Classify(text).query == Strip(text) && Classify(text).query != [] && Lower(Classify(text).query) != "quit"
  {
    if Strip(text) == [] {
      assert Lower(Strip(text)) == [];
    }
  }

  /** What the loop does with one event: stop, skip it, or route it and take the turn's outcome. */
  datatype Step = Stop | Skip | Routed(outcome: TurnOutcome)

  function StepOf(e: InputEvent): Step
  {
    match e
    case EndOfInput => Stop
    case KeyboardInterrupt => Stop
    case Line(text, routerRun, agentRun) =>
      match Classify(text)
      case Quit => Stop
      case Blank => Skip
      case Query(_) => Routed(TurnResult(routerRun, agentRun))
  }

  /** Everything the loop prints for a run of input events, up to the event that ends it. */
  function SessionOutput(events: seq<InputEvent>): seq<string>
  {
    if events == [] then []
    else match StepOf(events[0])
      case Stop => []
      case Skip => SessionOutput(events[1..])
      case Routed(outcome) => if outcome.Interrupted? then [] else TurnOutput(outcome) + SessionOutput(events[1..])
  }

  /** The number of queries the loop routes (one router run each) before it stops. */
  function RoutedQueries(events: seq<InputEvent>): nat
  {
    if events == [] then 0
    else match StepOf(events[0])
      case Stop => 0
      case Skip => RoutedQueries(events[1..])
      case Routed(outcome) => 1 + (if outcome.Interrupted? then 0 else RoutedQueries(events[1..]))
  }

  /** Alternating answers and separators, in pairs. */
  predicate Paired(out: seq<string>)
    decreases |out|
  {
    out == [] || (|out| >= 2 && out[1] == SeparatorLine && Paired(out[2..]))
  }

  /** In a paired output every second line is the separator. */
  lemma {:induction false} PairedSeparators(out: seq<string>)
    requires Paired(out)
    ensures |out| % 2 == 0
    ensures forall k :: 0 <= k < |out| && k % 2 == 1 ==> out[k] == SeparatorLine
  {
    if out != [] {
      PairedSeparators(out[2..]);
      forall k | 0 <= k < |out| && k % 2 == 1 ensures out[k] == SeparatorLine {
        if k >= 2 { assert out[k] == out[2..][k - 2]; }
      }
    }
  }

  /** A turn prints nothing or one answer/separator pair, so it keeps the output paired. */
  lemma PairedAfterTurn(outcome: TurnOutcome, rest: seq<string>)
    requires Paired(rest)
    ensures Paired(TurnOutput(outcome) + rest)
  {
    if outcome.Answered? {
      var out := TurnOutput(outcome) + rest;
      assert |out| >= 2 && out[1] == SeparatorLine && out[2..] == rest;
    } else {
      assert TurnOutput(outcome) + rest == rest;
    }
  }

  /**
   * The output is a sequence of answer/separator pairs: blank lines and the stopping
   * event print nothing, and every answered turn prints one pair.
   */
  lemma {:induction false} SessionOutputPaired(events: seq<InputEvent>)
    ensures Paired(SessionOutput(events))
  {
    if events != [] {
      var rest := events[1..];
      SessionOutputPaired(rest);
      match StepOf(events[0]) {
        case Stop =>
          assert SessionOutput(events) == [];
        case Skip =>
          assert SessionOutput(events) == SessionOutput(rest);
        case Routed(outcome) =>
          if outcome.Answered? {
            PairedAfterTurn(outcome, SessionOutput(rest));
            assert SessionOutput(events) == TurnOutput(outcome) + SessionOutput(rest);
          } else {
            assert SessionOutput(events) == [];
          }
      }
    }
  }

  /** At most one answer/separator pair is printed per routed query. */
  lemma {:induction false} SessionOutputBound(events: seq<InputEvent>)
    ensures |SessionOutput(events)| <= 2 * RoutedQueries(events)
  {
    if events != [] {
      SessionOutputBound(events[1..]);
      match StepOf(events[0])
      case Stop =>
      case Skip =>
      case Routed(outcome) =>
        if outcome.Answered? {
          assert |TurnOutput(outcome)| == 2;
        }
    }
  }

  /** One step of the loop, seen on the remaining events: what it prints and how many queries it routes. */
  lemma SessionStep(events: seq<InputEvent>, i: nat)
    requires i < |events|
    ensures StepOf(events[i]).Stop? ==> SessionOutput(events[i..]) == [] && RoutedQueries(events[i..]) == 0
    ensures StepOf(events[i]).Skip? ==>
      SessionOutput(events[i..]) == SessionOutput(events[i + 1..]) && RoutedQueries(events[i..]) == RoutedQueries(events[i + 1..])
    ensures StepOf(events[i]).Routed? && StepOf(events[i]).outcome.Interrupted? ==>
      SessionOutput(events[i..]) == [] && RoutedQueries(events[i..]) == 1
    ensures StepOf(events[i]).Routed? && StepOf(events[i]).outcome.Answered? ==>
      && SessionOutput(events[i..]) == TurnOutput(StepOf(events[i]).outcome) + SessionOutput(events[i + 1..])
      && RoutedQueries(events[i..]) == 1 + RoutedQueries(events[i + 1..])
  {
    assert events[i..][1..] == events[i + 1..];
    assert events[i..][0] == events[i];
  }

  /** The loop stops at event i: nothing more is printed or routed. */
  lemma SessionStops(events: seq<InputEvent>, i: nat, start: seq<string>, printed: seq<string>, startRuns: nat, runs: nat)
    requires i < |events|
    requires StepOf(events[i]).Stop? || (StepOf(events[i]).Routed? && StepOf(events[i]).outcome.Interrupted?)
    requires start + SessionOutput(events) == printed + SessionOutput(events[i..])
    requires startRuns + RoutedQueries(events) == runs + RoutedQueries(events[i..])
    ensures printed == start + SessionOutput(events)
    ensures runs + (if StepOf(events[i]).Routed? then 1 else 0) == startRuns + RoutedQueries(events)
  {
    SessionStep(events, i);
  }

  /** The loop goes on past event i, having printed and routed what that event asks for. */
  lemma SessionAdvances(events: seq<InputEvent>, i: nat, start: seq<string>, before: seq<string>, after: seq<string>,
                        startRuns: nat, runsBefore: nat, runsAfter: nat)
    requires i < |events|
    requires !(StepOf(events[i]).Stop? || (StepOf(events[i]).Routed? && StepOf(events[i]).outcome.Interrupted?))
    requires start + SessionOutput(events) == before + SessionOutput(events[i..])
    requires startRuns + RoutedQueries(events) == runsBefore + RoutedQueries(events[i..])
    requires after == before + (if StepOf(events[i]).Routed? then TurnOutput(StepOf(events[i]).outcome) else [])
    requires runsAfter == runsBefore + (if StepOf(events[i]).Routed? then 1 else 0)
    ensures start + SessionOutput(events) == after + SessionOutput(events[i + 1..])
    ensures startRuns + RoutedQueries(events) == runsAfter + RoutedQueries(events[i + 1..])
  {
    SessionStep(events, i);
    if StepOf(events[i]).Routed? {
      var out := TurnOutput(StepOf(events[i]).outcome);
      assert SessionOutput(events[i..]) == out + SessionOutput(events[i + 1..]);
      ConcatAssociates(before, out, SessionOutput(events[i + 1..]));
    } else {
      assert after == before;
    }
  }

  lemma ConcatAssociates(a: seq<string>, b: seq<string>, c: seq<string>)
    ensures (a + b) + c == a + (b + c)
  {
  }

  /** A line typed as "quit" in any case, with any surrounding whitespace, ends the session with no further output. */
  lemma QuitEndsSession(text: string, routerRun: RouterRun, agentRun: AgentRun, rest: seq<InputEvent>)
    requires Lower(Strip(text)) == "quit"
    ensures SessionOutput([Line(text, routerRun, agentRun)] + rest) == []
    ensures RoutedQueries([Line(text, routerRun, agentRun)] + rest) == 0
  {
  }

  /** A blank line is skipped: no routing, no output, whatever the router and agent would have done. */
  lemma BlankLineSkipped(text: string, routerRun: RouterRun, agentRun: AgentRun, rest: seq<InputEvent>)
    requires Strip(text) == []
    ensures SessionOutput([Line(text, routerRun, agentRun)] + rest) == SessionOutput(rest)
    ensures RoutedQueries([Line(text, routerRun, agentRun)] + rest) == RoutedQueries(rest)
  {
    assert ([Line(text, routerRun, agentRun)] + rest)[1..] == rest;
    assert Lower(Strip(text)) == [];
  }

  // ---------------------------------------------------------------- the session

  /** The three agents and the Qdrant client created at start-up, and everything printed so far. */
  class Session {
    const router: Agent
    const rag: Agent
    const web: Agent
    const qdrantClient: Tools.QdrantClient
    var transcript: seq<string>

    /** The three agents are distinct objects. */
    ghost predicate Valid()
      reads this
    {
      router != rag && rag != web && router != web
    }

    constructor (router: Agent, rag: Agent, web: Agent, qdrantClient: Tools.QdrantClient)
      requires router != rag && rag != web && router != web
      ensures Valid()
      ensures this.router == router && this.rag == rag && this.web == web && this.qdrantClient == qdrantClient
      ensures transcript == []
    {
      this.router := router;
      this.rag := rag;
      this.web := web;
      this.qdrantClient := qdrantClient;
      transcript := [];
    }

    /**
     * Step 1 of a turn: run the router with tool execution off and normalise its answer.
     * None when the run is interrupted.
     */
    method Route(query: string, routerRun: RouterRun) returns (decision: Option<RoutingDecision>)
      modifies router
      ensures decision == if routerRun.RouterInterrupted? then None else Some(EffectiveDecision(routerRun))
      ensures router.tools == old(router.tools) && router.systemPrompt == old(router.systemPrompt) && !router.autoExecuteTools
      ensures router.runs == old(router.runs) + [RunConfig(query, old(router.tools), old(router.systemPrompt), false, None)]
    {
      var d := RoutingDecision(false, false);
      router.autoExecuteTools := false;
      router.Run(query, None);
      if routerRun.RouterInterrupted? {
        return None;
      }
      if routerRun.RouterReturns? && routerRun.result.Some? && routerRun.result.value.Decision? {
        d := routerRun.result.value.decision;
        if d.vectorSearch && d.webSearch {
          d := d.(webSearch := false);
        }
      }
      decision := Some(d);
    }

    /**
     * Step 2 of a turn: run exactly one agent, chosen by the decision. The direct branch
     * runs the web search agent without tools and with the direct prompt, and puts its
     * tools and prompt back on every path, interruption included; it leaves tool execution
     * off. A failing run becomes the fixed error sentence. None when the run is interrupted.
     */
    method Execute(query: string, decision: RoutingDecision, agentRun: AgentRun) returns (answered: TurnOutcome)
      requires Valid()
      modifies rag, web
      ensures var b := BranchFor(decision);
        answered == if agentRun.RunInterrupted? then Interrupted else Answered(AgentName(b), FinalAnswer(b, agentRun))
      ensures rag.tools == old(rag.tools) && rag.systemPrompt == old(rag.systemPrompt)
      ensures web.tools == old(web.tools) && web.systemPrompt == old(web.systemPrompt)
      ensures var b := BranchFor(decision);
        && rag.runs == old(rag.runs) +
             (if b == VectorBranch
              then [RunConfig(query, old(rag.tools), old(rag.systemPrompt), true, Some(Tools.RagDeps(Some(qdrantClient))))]
              else [])
        && web.runs == old(web.runs) +
             (if b == WebBranch then [RunConfig(query, old(web.tools), old(web.systemPrompt), true, None)]
              else if b == DirectBranch then [RunConfig(query, [], DirectPrompt, false, None)]
              else [])
        && rag.autoExecuteTools == (b == VectorBranch || old(rag.autoExecuteTools))
        && web.autoExecuteTools == (if b == WebBranch then true else if b == DirectBranch then false else old(web.autoExecuteTools))
    {
      var finalAnswer: Option<string> := None;
      var agentUsed := "None";
      if decision.vectorSearch {
        agentUsed := AgentName(VectorBranch);
        rag.autoExecuteTools := true;
        var ragDeps := Tools.RagDeps(Some(qdrantClient));
        rag.Run(query, Some(ragDeps));
      } else if decision.webSearch {
        agentUsed := AgentName(WebBranch);
        web.autoExecuteTools := true;
        web.Run(query, None);
      } else {
        agentUsed := AgentName(DirectBranch);
        var originalTools := web.tools;
        var originalPrompt := web.systemPrompt;
        web.tools := [];
        web.autoExecuteTools := false;
        web.systemPrompt := DirectPrompt;
        web.Run(query, None);
        // finally: restore
        web.tools := originalTools;
        web.systemPrompt := originalPrompt;
      }
      if agentRun.RunInterrupted? {
        return Interrupted;
      }
      match agentRun {
        case RunReturns(data) => finalAnswer := data;
        case RunRaises(_) => finalAnswer := Some("Error processing request via " + agentUsed + ". Please check logs.");
      }
      answered := Answered(agentUsed, finalAnswer);
    }

    /**
     * One pass of the loop body for a non-empty query: route, run exactly one agent
     * (see Execute), print the answer and the separator.
     */
    method Turn(query: string, routerRun: RouterRun, agentRun: AgentRun) returns (outcome: TurnOutcome)
      requires Valid()
      modifies this`transcript, router, rag, web
      ensures outcome == TurnResult(routerRun, agentRun)
      ensures transcript == old(transcript) + TurnOutput(outcome)
      ensures router.tools == old(router.tools) && router.systemPrompt == old(router.systemPrompt) && !router.autoExecuteTools
      ensures router.runs == old(router.runs) + [RunConfig(query, old(router.tools), old(router.systemPrompt), false, None)]
      ensures rag.tools == old(rag.tools) && rag.systemPrompt == old(rag.systemPrompt)
      ensures web.tools == old(web.tools) && web.systemPrompt == old(web.systemPrompt)
      ensures routerRun.RouterInterrupted? ==>
        rag.runs == old(rag.runs) && web.runs == old(web.runs) &&
        rag.autoExecuteTools == old(rag.autoExecuteTools) && web.autoExecuteTools == old(web.autoExecuteTools)
      ensures !routerRun.RouterInterrupted? ==>
        var b := BranchFor(EffectiveDecision(routerRun));
        && rag.runs == old(rag.runs) +
             (if b == VectorBranch
              then [RunConfig(query, old(rag.tools), old(rag.systemPrompt), true, Some(Tools.RagDeps(Some(qdrantClient))))]
              else [])
        && web.runs == old(web.runs) +
             (if b == WebBranch then [RunConfig(query, old(web.tools), old(web.systemPrompt), true, None)]
              else if b == DirectBranch then [RunConfig(query, [], DirectPrompt, false, None)]
              else [])
        && rag.autoExecuteTools == (b == VectorBranch || old(rag.autoExecuteTools))
        && web.autoExecuteTools == (if b == WebBranch then true else if b == DirectBranch then false else old(web.autoExecuteTools))
    {
      // 1. route
      var decision := Route(query, routerRun);
      if decision.None? {
        return Interrupted;
      }
      // 2. execute
      outcome := Execute(query, decision.value, agentRun);
      if outcome.Interrupted? {
        return;
      }
      // 3. display
      transcript := transcript + [Render(outcome.agentUsed, outcome.finalAnswer)];
      transcript := transcript + [SeparatorLine];
    }

    /**
     * One pass of the `while True` body for a typed line: strip it, stop on "quit" in any
     * letter case, skip it when empty, else take a turn. True when the loop must stop.
     */
    method HandleLine(text: string, routerRun: RouterRun, agentRun: AgentRun) returns (stop: bool)
      requires Valid()
      modifies this`transcript, router, rag, web
      ensures var step := StepOf(Line(text, routerRun, agentRun));
        && stop == (step.Stop? || (step.Routed? && step.outcome.Interrupted?))
        && transcript == old(transcript) + (if step.Routed? then TurnOutput(step.outcome) else [])
        && |router.runs| == |old(router.runs)| + (if step.Routed? then 1 else 0)
      ensures web.tools == old(web.tools) && web.systemPrompt == old(web.systemPrompt)
      ensures rag.tools == old(rag.tools) && rag.systemPrompt == old(rag.systemPrompt)
    {
      match Classify(text)
      case Quit =>
        stop := true;
      case Blank =>
        stop := false;
      case Query(query) =>
        var outcome := Turn(query, routerRun, agentRun);
        stop := outcome.Interrupted?;
    }

    /**
     * The `while True` loop: read events until end of input, Ctrl+C or "quit", skipping blank
     * lines. It prints exactly `SessionOutput(events)`, routes `RoutedQueries(events)` queries,
     * and leaves the web search agent's tools and prompt as it found them.
     */
    method Serve(events: seq<InputEvent>)
      requires Valid()
      modifies this`transcript, router, rag, web
      ensures transcript == old(transcript) + SessionOutput(events)
      ensures |router.runs| == |old(router.runs)| + RoutedQueries(events)
      ensures web.tools == old(web.tools) && web.systemPrompt == old(web.systemPrompt)
      ensures rag.tools == old(rag.tools) && rag.systemPrompt == old(rag.systemPrompt)
    {
      var i := 0;
      while i < |events|
        invariant 0 <= i <= |events|
        invariant old(transcript) + SessionOutput(events) == transcript + SessionOutput(events[i..])
        invariant |old(router.runs)| + RoutedQueries(events) == |router.runs| + RoutedQueries(events[i..])
        invariant web.tools == old(web.tools) && web.systemPrompt == old(web.systemPrompt)
        invariant rag.tools == old(rag.tools) && rag.systemPrompt == old(rag.systemPrompt)
        decreases |events| - i
      {
        var stop := ServeEvent(events, i, old(transcript), |old(router.runs)|);
        if stop {
          break;
        }
        i := i + 1;
      }
    }

    /**
     * One pass of the loop on event i: end of input and Ctrl+C stop it, a line is handled.
     * Whatever happens, the printed text stays on course for `SessionOutput(events)`.
     */
    method ServeEvent(events: seq<InputEvent>, i: nat, ghost start: seq<string>, ghost startRuns: nat) returns (stop: bool)
      requires Valid() && i < |events|
      requires start + SessionOutput(events) == transcript + SessionOutput(events[i..])
      requires startRuns + RoutedQueries(events) == |router.runs| + RoutedQueries(events[i..])
      modifies this`transcript, router, rag, web
      ensures stop ==> transcript == start + SessionOutput(events) && |router.runs| == startRuns + RoutedQueries(events)
      ensures !stop ==>
        && start + SessionOutput(events) == transcript + SessionOutput(events[i + 1..])
        && startRuns + RoutedQueries(events) == |router.runs| + RoutedQueries(events[i + 1..])
      ensures web.tools == old(web.tools) && web.systemPrompt == old(web.systemPrompt)
      ensures rag.tools == old(rag.tools) && rag.systemPrompt == old(rag.systemPrompt)
    {
      if !events[i].Line? {
        SessionStops(events, i, start, transcript, startRuns, |router.runs|);
        return true;
      }
      ghost var before := transcript;
      ghost var runsBefore := |router.runs|;
      var e := events[i];
      assert e == Line(e.text, e.routerRun, e.agentRun);
      stop := HandleLine(e.text, e.routerRun, e.agentRun);
      if stop {
        SessionStops(events, i, start, before, startRuns, runsBefore);
      } else {
        SessionAdvances(events, i, start, before, transcript, startRuns, runsBefore, |router.runs|);
      }
    }
  }

  // ---------------------------------------------------------------- start-up

  /** The system prompts the three agents are created with (their text lives with the agent definitions). */
  datatype Prompts = Prompts(router: string, rag: string, web: string)

  /** The failures start-up can meet: the Qdrant client and collection check, and the agent constructors. */
  datatype StartFaults = StartFaults(connect: Option<Exception>, collection: VectorStore.ClientFaults, createAgents: Option<Exception>)

  /** How start-up ended; every failure is a plain return from `main()`. */
  datatype StartOutcome = NoApiKey | QdrantFailed(error: Exception) | AgentsFailed(error: Exception) | SystemReady

  function StartResult(apiKey: string, faults: StartFaults, collectionExists: bool): StartOutcome
  {
    if apiKey == [] then NoApiKey
    else if faults.connect.Some? then QdrantFailed(faults.connect.value)
    else if faults.collection.existsCheck.Some? then QdrantFailed(faults.collection.existsCheck.value)
    else if !collectionExists && faults.collection.create.Some? then QdrantFailed(faults.collection.create.value)
    else if faults.createAgents.Some? then AgentsFailed(faults.createAgents.value)
    else SystemReady
  }

  /** The key check comes first: without a key nothing else is attempted, whatever would have failed. */
  lemma MissingKeyStopsFirst(faults: StartFaults, faults': StartFaults, collectionExists: bool, collectionExists': bool)
    ensures StartResult([], faults, collectionExists) == StartResult([], faults', collectionExists') == NoApiKey
  {
  }

  /** The steps of `main()` before the loop: key check, Qdrant set-up, agent creation. */
  method Start(apiKey: string, prompts: Prompts, store: VectorStore.Collection, faults: StartFaults, client: Tools.QdrantClient)
    returns (outcome: StartOutcome, session: Session?)
    requires store.Valid()
    modifies store`collectionExists, store`params
    ensures store.Valid()
    ensures outcome == StartResult(apiKey, faults, old(store.collectionExists))
    ensures (apiKey == [] || faults.connect.Some?) ==> unchanged(store)
    ensures outcome.SystemReady? <==> session != null
    ensures session != null ==>
      && fresh(session) && fresh(session.router) && fresh(session.rag) && fresh(session.web)
      && session.Valid() && session.transcript == [] && session.qdrantClient == client
      && session.router.tools == [] && session.router.systemPrompt == prompts.router && !session.router.autoExecuteTools
      && session.rag.tools == [Tools.VectorSearchKnowledgeBase] && session.rag.systemPrompt == prompts.rag && session.rag.autoExecuteTools
      && session.web.tools == [Tools.WebSearchCurrentEvents] && session.web.systemPrompt == prompts.web && session.web.autoExecuteTools
      && session.router.runs == [] && session.rag.runs == [] && session.web.runs == []
  {
    session := null;
    if apiKey == [] {
      return NoApiKey, null;
    }
    if faults.connect.Some? {
      return QdrantFailed(faults.connect.value), null;
    }
    var checked := store.CreateIfNotExists(VectorStore.Metric, faults.collection);
    if checked.Raised? {
      return QdrantFailed(checked.error), null;
    }
    if faults.createAgents.Some? {
      return AgentsFailed(faults.createAgents.value), null;
    }
    var routerAgent := new Agent([], prompts.router, false);
    var ragAgent := new Agent([Tools.VectorSearchKnowledgeBase], prompts.rag, true);
    var webSearchAgent := new Agent([Tools.WebSearchCurrentEvents], prompts.web, true);
    session := new Session(routerAgent, ragAgent, webSearchAgent, client);
    outcome := SystemReady;
  }

  /** `main()`: start up, and when everything is ready serve the input; returns what the loop printed. */
  method RunMain(apiKey: string, prompts: Prompts, store: VectorStore.Collection, faults: StartFaults,
                 client: Tools.QdrantClient, events: seq<InputEvent>)
    returns (outcome: StartOutcome, printed: seq<string>)
    requires store.Valid()
    modifies store`collectionExists, store`params
    ensures store.Valid()
    ensures outcome == StartResult(apiKey, faults, old(store.collectionExists))
    ensures apiKey == [] ==> unchanged(store)
    ensures printed == if outcome.SystemReady? then SessionOutput(events) else []
  {
    var session;
    outcome, session := Start(apiKey, prompts, store, faults, client);
    printed := [];
    if session != null {
      session.Serve(events);
      printed := session.transcript;
    }
  }
}
