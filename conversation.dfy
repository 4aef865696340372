/** The turn driver of `call_LLM`: the user prompt is appended to the
    history, the language model is asked for a reply, every part of the
    reply is recorded as its own model turn, every function call in it is
    dispatched in order, and all tool results go back as one user turn,
    until the language model stops calling tools, its reply is empty, or
    the API fails.

    The language model is the function `generate` of the environment: it
    maps the history sent to it onto a reply or an API failure. The loop of
    the source can run for ever when the language model keeps calling tools,
    so the functions and methods here bound it by `fuel` iterations. */
module Conversation {
  import opened Wrappers
  import opened Values
  import opened Tools

  datatype Role = User | Model

  /** A part of a turn: text, a function call from the model, or a tool
      result sent back under the tool's name. */
  datatype Part = TextPart(text: string) | CallPart(call: FunctionCall) | ResponsePart(name: string, response: ToolResult)

  datatype Turn = Turn(role: Role, parts: seq<Part>)

  /** A reply candidate; its content may be missing (for example when blocked). */
  datatype Candidate = Candidate(content: Option<seq<Part>>)

  datatype Reply = Reply(candidates: seq<Candidate>)

  /** What one request to the model service gives: a reply, or the message
      of the exception it raised. */
  datatype ApiOutcome = Replied(reply: Reply) | ApiFailed(message: string)

  /** Everything outside the front-end: the classification of names by the
      globals lookup, the analysis library and the model service. */
  datatype Env = Env(classify: string -> NameKind, lib: Library, generate: seq<Turn> -> ApiOutcome)

  /** The conversation history, the log of tool calls and the session slots. */
  datatype State = State(history: seq<Turn>, toolLog: seq<FunctionCall>, slots: Slots)

  /** Why a call of the driver ended. `LookupRaised` is the exception of the
      globals lookup, which no handler catches; `OutOfFuel` is the `fuel`
      bound, which the source does not have. */
  datatype Ending = NoCandidates | EmptyContent | NoCalls | ApiError | LookupRaised | OutOfFuel

  datatype Step = Continue(state: State, reply: Reply) | Stop(state: State, ending: Ending)

  /** The outcome of dispatching the calls of one reply. */
  datatype Batch = Batch(toolLog: seq<FunctionCall>, slots: Slots, responses: seq<Part>, raised: bool)

  function UserTurn(prompt: string): Turn
  {
    Turn(User, [TextPart(prompt)])
  }

  /** The turn that reports a failure of the model service. */
  function ErrorTurn(message: string): Turn
  {
    Turn(Model, [TextPart("An error occurred: " + message)])
  }

  /** Each part of a reply as its own single-part model turn. */
  function ModelTurns(parts: seq<Part>): (turns: seq<Turn>)
    ensures |turns| == |parts|
    ensures forall i :: 0 <= i < |parts| ==> turns[i] == Turn(Model, [parts[i]])
  {
    seq(|parts|, i requires 0 <= i < |parts| => Turn(Model, [parts[i]]))
  }

  /** The function calls among the parts, in order. */
  function Calls(parts: seq<Part>): (calls: seq<FunctionCall>)
    ensures |calls| <= |parts|
    ensures calls == [] <==> forall i :: 0 <= i < |parts| ==> !parts[i].CallPart?
    ensures forall k :: 0 <= k < |calls| ==> CallPart(calls[k]) in parts
  {
    if parts == [] then []
    else
      var last := parts[|parts| - 1];
      assert parts == parts[..|parts| - 1] + [last];
      Calls(parts[..|parts| - 1]) + (if last.CallPart? then [last.call] else [])
  }

  /** Collecting calls commutes with concatenating parts, so the calls of a
      reply are those of its parts one by one, in order: a call part gives
      its call and any other part gives nothing. */
  lemma {:induction false} CallsAppend(a: seq<Part>, b: seq<Part>)
    decreases |b|
    ensures Calls(a + b) == Calls(a) + Calls(b)
  {
    if b == [] {
      assert a + b == a;
    } else {
      var init := b[..|b| - 1];
      assert (a + b)[..|a + b| - 1] == a + init;
      assert (a + b)[|a + b| - 1] == b[|b| - 1];
      CallsAppend(a, init);
    }
  }

  /** The calls of a single part. */
  lemma CallsOne(p: Part)
    ensures Calls([p]) == if p.CallPart? then [p.call] else []
  {
    assert [p][..0] == [];
  }

  /** The parts of the first candidate, when there is one with content. */
  function ReplyParts(reply: Reply): Option<seq<Part>>
  {
    if |reply.candidates| == 0 then None
    else if reply.candidates[0].content.None? || reply.candidates[0].content.value == [] then None
    else Some(reply.candidates[0].content.value)
  }

  /** Dispatching the calls of one reply strictly in order, each seeing the
      slots left by the one before. Each call is logged before it is
      dispatched; a raising lookup abandons the rest of the batch. Without
      that exception there is exactly one result per call, in the order of
      the calls. */
  function DispatchAll(env: Env, log: seq<FunctionCall>, slots: Slots, calls: seq<FunctionCall>): (b: Batch)
    decreases |calls|, 1
    ensures !b.raised ==> b.toolLog == log + calls && |b.responses| == |calls|
    ensures !b.raised ==> forall i :: 0 <= i < |calls| ==> b.responses[i].ResponsePart? && b.responses[i].name == calls[i].name
    ensures b.raised <==> exists i :: 0 <= i < |calls| && env.classify(calls[i].name) == NoModuleAttribute
  {
    if calls == [] then Batch(log, slots, [], false) else DispatchLast(env, log, slots, calls)
  }

  /** A non-empty batch: all calls but the last, then the last one unless
      an earlier lookup raised. */
  function DispatchLast(env: Env, log: seq<FunctionCall>, slots: Slots, calls: seq<FunctionCall>): Batch
    requires calls != []
    decreases |calls|, 0
  {
    var init := calls[..|calls| - 1];
    var call := calls[|calls| - 1];
    var prev := DispatchAll(env, log, slots, init);
    assert forall i :: 0 <= i < |init| ==> init[i] == calls[i];
    if prev.raised then prev
    else
      var log' := prev.toolLog + [call];
      assert log' == log + calls by { assert calls == init + [call]; }
      match Dispatch(env.classify, env.lib, prev.slots, call)
      case None => Batch(log', prev.slots, prev.responses, true)
      case Some(h) => Batch(log', h.slots, prev.responses + [ResponsePart(call.name, h.result)], false)
  }

  /** A batch only appends to the tool log, at most one entry per call, and
      only adds figures, at most one per call. */
  lemma {:induction false} DispatchAllExtends(env: Env, log: seq<FunctionCall>, slots: Slots, calls: seq<FunctionCall>)
    decreases |calls|
    ensures var b := DispatchAll(env, log, slots, calls);
            && log <= b.toolLog && |b.toolLog| <= |log| + |calls|
            && slots.figures <= b.slots.figures && |b.slots.figures| <= |slots.figures| + |calls|
  {
    if calls != [] {
      var init := calls[..|calls| - 1];
      DispatchAllExtends(env, log, slots, init);
    }
  }

  /** Without a raise, every prefix of the batch answers its calls with a
      prefix of the batch's responses, and raises neither. */
  lemma {:induction false} DispatchAllPrefix(env: Env, log: seq<FunctionCall>, slots: Slots, calls: seq<FunctionCall>, k: nat)
    requires k <= |calls|
    requires !DispatchAll(env, log, slots, calls).raised
    ensures var pre := DispatchAll(env, log, slots, calls[..k]);
            !pre.raised && pre.responses == DispatchAll(env, log, slots, calls).responses[..k]
    decreases |calls|
  {
    if k == |calls| {
      assert calls[..k] == calls;
    } else {
      var init := calls[..|calls| - 1];
      assert init[..k] == calls[..k];
      DispatchAllPrefix(env, log, slots, init, k);
    }
  }

  /** Without a raise, the i-th response is the result of dispatching the
      i-th call on the slots the earlier calls left, and the slots after it
      are the ones that dispatch gives. With `i == |calls| - 1` this ties the
      batch's final slots to its last call. */
  lemma DispatchAllResponse(env: Env, log: seq<FunctionCall>, slots: Slots, calls: seq<FunctionCall>, i: nat)
    requires i < |calls|
    requires !DispatchAll(env, log, slots, calls).raised
    ensures var h := Dispatch(env.classify, env.lib, DispatchAll(env, log, slots, calls[..i]).slots, calls[i]);
            && h.Some?
            && DispatchAll(env, log, slots, calls).responses[i] == ResponsePart(calls[i].name, h.value.result)
            && DispatchAll(env, log, slots, calls[..i + 1]).slots == h.value.slots
  {
    DispatchAllPrefix(env, log, slots, calls, i + 1);
    assert calls[..i + 1][..i] == calls[..i];
    assert calls[..i + 1][i] == calls[i];
  }

  /** A name that is neither a steel-section constructor nor a handler name
      reaches the language model as the default error, at its own position. */
  lemma DispatchAllNotAvailable(env: Env, log: seq<FunctionCall>, slots: Slots, calls: seq<FunctionCall>, i: nat)
    requires i < |calls|
    requires !DispatchAll(env, log, slots, calls).raised
    requires env.classify(calls[i].name) != SteelSection && !IsHandlerName(calls[i].name)
    ensures DispatchAll(env, log, slots, calls).responses[i] == ResponsePart(calls[i].name, NotAvailable(calls[i].name))
  {
    DispatchAllResponse(env, log, slots, calls, i);
  }

  /** A plot request before any stresses exist reaches the language model as the
      structured "not calculated yet" error. */
  lemma DispatchAllNoStresses(env: Env, log: seq<FunctionCall>, slots: Slots, calls: seq<FunctionCall>, i: nat)
    requires i < |calls|
    requires !DispatchAll(env, log, slots, calls).raised
    requires env.classify(calls[i].name) != SteelSection && calls[i].name == PLOT_STRESS
    requires DispatchAll(env, log, slots, calls[..i]).slots.stresses.None?
    ensures DispatchAll(env, log, slots, calls).responses[i] == ResponsePart(PLOT_STRESS, Err(NO_STRESSES))
  {
    DispatchAllResponse(env, log, slots, calls, i);
  }

  /** A raising batch has logged every call up to and including the first
      one whose lookup raises, and no call after it: each call is logged
      before its lookup runs. */
  lemma {:induction false} DispatchAllRaisedLog(env: Env, log: seq<FunctionCall>, slots: Slots, calls: seq<FunctionCall>)
    decreases |calls|
    requires DispatchAll(env, log, slots, calls).raised
    ensures exists k :: 0 <= k < |calls| && env.classify(calls[k].name) == NoModuleAttribute &&
              (forall j :: 0 <= j < k ==> env.classify(calls[j].name) != NoModuleAttribute) &&
              DispatchAll(env, log, slots, calls).toolLog == log + calls[..k + 1]
  {
    var init := calls[..|calls| - 1];
    var prev := DispatchAll(env, log, slots, init);
    if prev.raised {
      DispatchAllRaisedLog(env, log, slots, init);
      var k :| 0 <= k < |init| && env.classify(init[k].name) == NoModuleAttribute &&
               (forall j :: 0 <= j < k ==> env.classify(init[j].name) != NoModuleAttribute) &&
               prev.toolLog == log + init[..k + 1];
      assert init[..k + 1] == calls[..k + 1];
      assert forall j :: 0 <= j <= k ==> init[j] == calls[j];
    } else {
      var k := |calls| - 1;
      assert forall j :: 0 <= j < k ==> init[j] == calls[j];
      assert calls[..k + 1] == calls;
    }
  }

  /** Once a call of the batch raised, the later calls change nothing. */
  lemma {:induction false} DispatchAllRaised(env: Env, log: seq<FunctionCall>, slots: Slots, calls: seq<FunctionCall>, k: nat)
    requires k <= |calls|
    requires DispatchAll(env, log, slots, calls[..k]).raised
    ensures DispatchAll(env, log, slots, calls) == DispatchAll(env, log, slots, calls[..k])
    decreases |calls| - k
  {
    if k < |calls| {
      assert calls[..k + 1][..k] == calls[..k];
      DispatchAllRaised(env, log, slots, calls, k + 1);
    } else {
      assert calls[..k] == calls;
    }
  }

  /** One iteration of the driver loop on a reply. */
  function Iterate(env: Env, st: State, reply: Reply): (step: Step)
    ensures st.history <= step.state.history
    ensures st.toolLog <= step.state.toolLog
    ensures ReplyParts(reply).None? ==>
              step == Stop(st, if |reply.candidates| == 0 then NoCandidates else EmptyContent)
    ensures ReplyParts(reply).Some? ==>
              st.history + ModelTurns(ReplyParts(reply).value) <= step.state.history
    ensures ReplyParts(reply).Some? && Calls(ReplyParts(reply).value) == [] ==>
              step == Stop(State(st.history + ModelTurns(ReplyParts(reply).value), st.toolLog, st.slots), NoCalls)
    ensures step.Continue? ==>
              var parts := ReplyParts(reply).value;
              var b := DispatchAll(env, st.toolLog, st.slots, Calls(parts));
              && !b.raised && |b.responses| == |Calls(parts)| > 0
              && step.state == State(st.history + ModelTurns(parts) + [Turn(User, b.responses)], b.toolLog, b.slots)
              && env.generate(step.state.history) == Replied(step.reply)
    ensures ReplyParts(reply).Some? ==>
              var parts := ReplyParts(reply).value;
              var recorded := st.history + ModelTurns(parts);
              var b := DispatchAll(env, st.toolLog, st.slots, Calls(parts));
              var sent := recorded + [Turn(User, b.responses)];
              && (b.raised ==> step == Stop(State(recorded, b.toolLog, b.slots), LookupRaised))
              && (!b.raised && Calls(parts) != [] && env.generate(sent).Replied? ==>
                    step == Continue(State(sent, b.toolLog, b.slots), env.generate(sent).reply))
              && (!b.raised && Calls(parts) != [] && env.generate(sent).ApiFailed? ==>
                    step == Stop(State(sent + [ErrorTurn(env.generate(sent).message)], b.toolLog, b.slots), ApiError))
    ensures st.slots.figures <= step.state.slots.figures
  {
    match ReplyParts(reply)
    case None => Stop(st, if |reply.candidates| == 0 then NoCandidates else EmptyContent)
    case Some(parts) =>
      var recorded := st.history + ModelTurns(parts);
      var b := DispatchAll(env, st.toolLog, st.slots, Calls(parts));
      DispatchAllExtends(env, st.toolLog, st.slots, Calls(parts));
      if b.raised then Stop(State(recorded, b.toolLog, b.slots), LookupRaised)
      else if b.responses == [] then Stop(State(recorded, b.toolLog, b.slots), NoCalls)
      else
        var sent := recorded + [Turn(User, b.responses)];
        match env.generate(sent)
        case Replied(next) => Continue(State(sent, b.toolLog, b.slots), next)
        case ApiFailed(e) => Stop(State(sent + [ErrorTurn(e)], b.toolLog, b.slots), ApiError)
  }

  /** The driver loop for at most `fuel` iterations. The history and the
      tool log are only ever extended, and figures only added. */
  function Loop(env: Env, st: State, reply: Reply, fuel: nat): (r: (State, Ending))
    decreases fuel
    ensures fuel == 0 ==> r == (st, OutOfFuel)
  {
    if fuel == 0 then (st, OutOfFuel)
    else
      match Iterate(env, st, reply)
      case Stop(next, ending) => (next, ending)
      case Continue(next, r) => Loop(env, next, r, fuel - 1)
  }

  /** The loop runs out of fuel exactly when every iteration it was allowed
      continued: with fuel left, it runs out exactly when this iteration
      continues and the rest of the loop runs out. */
  lemma LoopOutOfFuel(env: Env, st: State, reply: Reply, fuel: nat)
    requires fuel > 0
    ensures var step := Iterate(env, st, reply);
            Loop(env, st, reply, fuel).1 == OutOfFuel <==>
              step.Continue? && Loop(env, step.state, step.reply, fuel - 1).1 == OutOfFuel
  {
  }

  /** The history, the tool log and the figures are only ever extended by
      the loop. */
  lemma {:induction false} LoopExtends(env: Env, st: State, reply: Reply, fuel: nat)
    decreases fuel
    ensures st.history <= Loop(env, st, reply, fuel).0.history
    ensures st.toolLog <= Loop(env, st, reply, fuel).0.toolLog
    ensures st.slots.figures <= Loop(env, st, reply, fuel).0.slots.figures
  {
    if fuel > 0 {
      match Iterate(env, st, reply)
      case Stop(_, _) =>
      case Continue(next, r) =>
        LoopExtends(env, next, r, fuel - 1);
    }
  }

  lemma LoopStops(env: Env, st: State, reply: Reply, fuel: nat, last: State, ending: Ending)
    requires fuel > 0 && Iterate(env, st, reply) == Stop(last, ending)
    ensures Loop(env, st, reply, fuel) == (last, ending)
  {
  }

  lemma LoopContinues(env: Env, st: State, reply: Reply, fuel: nat, next: State, nextReply: Reply)
    requires fuel > 0 && Iterate(env, st, reply) == Continue(next, nextReply)
    ensures Loop(env, st, reply, fuel) == Loop(env, next, nextReply, fuel - 1)
  {
  }

  /** `call_LLM` on one user prompt, as its caller's session sees it: the
      figures of the call start empty, the prompt is appended as one user
      turn, and a failing first request ends the call with one error turn and
      the slots as they were. History and tool log are the caller's own
      lists, appended to in place; the geometry, section, stresses and
      figures reach the caller only when `call_LLM` returns. When a globals
      lookup raises, `call_LLM` never returns, so the caller keeps every
      appended turn and log entry but its slots stay as they were and no
      figure is shown. */
  function Converse(env: Env, st: State, prompt: string, fuel: nat): (r: (State, Ending))
    ensures st.history + [UserTurn(prompt)] <= r.0.history
    ensures st.toolLog <= r.0.toolLog
    ensures env.generate(st.history + [UserTurn(prompt)]).ApiFailed? ==>
              r == (State(st.history + [UserTurn(prompt), ErrorTurn(env.generate(st.history + [UserTurn(prompt)]).message)],
                          st.toolLog, st.slots.(figures := [])),
                    ApiError)
    ensures r.1 == LookupRaised ==> r.0.slots == st.slots.(figures := [])
    ensures var start := State(st.history + [UserTurn(prompt)], st.toolLog, st.slots.(figures := []));
            env.generate(start.history).Replied? ==>
              var l := Loop(env, start, env.generate(start.history).reply, fuel);
              r == if l.1 == LookupRaised then (State(l.0.history, l.0.toolLog, start.slots), LookupRaised) else l
  {
    var start := State(st.history + [UserTurn(prompt)], st.toolLog, st.slots.(figures := []));
    match env.generate(start.history)
    case ApiFailed(e) =>
      assert start.history + [ErrorTurn(e)] == st.history + [UserTurn(prompt), ErrorTurn(e)];
      (State(start.history + [ErrorTurn(e)], start.toolLog, start.slots), ApiError)
    case Replied(reply) =>
      LoopExtends(env, start, reply, fuel);
      var (last, ending) := Loop(env, start, reply, fuel);
      if ending == LookupRaised then (State(last.history, last.toolLog, start.slots), LookupRaised)
      else (last, ending)
  }

  /** The mutable session of the front-end: the history and tool log that
      `call_LLM` appends to, the geometry, section and stress slots it
      reassigns, and the figures it collects. */
  class Session {
    var history: seq<Turn>
    var toolLog: seq<FunctionCall>
    var geom: Option<Geometry>
    var sec: Option<Section>
    var stresses: Option<StressPost>
    var figures: seq<Figure>

    function CurrentSlots(): Slots
      reads this
    {
      Slots(geom, sec, stresses, figures)
    }

    function Snapshot(): State
      reads this
    {
      State(history, toolLog, CurrentSlots())
    }

    constructor (history: seq<Turn>, toolLog: seq<FunctionCall>, geom: Option<Geometry>, sec: Option<Section>, stresses: Option<StressPost>)
      ensures Snapshot() == State(history, toolLog, Slots(geom, sec, stresses, []))
    {
      this.history := history;
      this.toolLog := toolLog;
      this.geom := geom;
      this.sec := sec;
      this.stresses := stresses;
      this.figures := [];
    }

    /** A steel-section constructor call (the first branch of the chain). */
    method SteelSectionHandler(lib: Library, call: FunctionCall) returns (result: ToolResult)
      modifies this`geom, this`sec, this`figures
      ensures SteelSectionCall(lib, old(CurrentSlots()), call) == Handled(CurrentSlots(), result)
    {
      var built := lib.buildSection(call.name, call.args);
      if built.Failure? {
        return ErrorCalling(call.name, built.error);
      }
      geom := Some(built.value);
      var meshed := lib.createMesh(built.value);
      if meshed.Fail? {
        return ErrorCalling(call.name, meshed.error);
      }
      var made := lib.newSection(built.value);
      if made.Failure? {
        return ErrorCalling(call.name, made.error);
      }
      sec := Some(made.value);
      var plotted := lib.plotMesh(made.value);
      if plotted.Failure? {
        return ErrorCalling(call.name, plotted.error);
      }
      figures := figures + [plotted.value];
      result := Ok(MESH_MESSAGE, MeshDetails(MESH_NEXT));
    }

    /** `calculate_geometric_properties` or `calculate_warping_properties`. */
    method PropertiesHandler(run: PropertyRun, lib: Library, call: FunctionCall) returns (result: ToolResult)
      ensures PropertiesCall(run, lib, CurrentSlots(), call) == Handled(CurrentSlots(), result)
    {
      if sec.None? {
        return ErrorCalling(call.name, NoneAttribute(PropertyName(run)));
      }
      var computed := if run == Geometric then lib.geometricProperties(sec.value, call.args)
                      else lib.warpingProperties(sec.value, call.args);
      assert computed == ComputeProperties(run, lib, sec.value, call.args);
      if computed.Failure? {
        return ErrorCalling(call.name, computed.error);
      }
      result := Ok(PropertyMessage(run), PropertyDetails(PropertyKey(run), computed.value, PropertyNext(run)));
    }

    /** `calculate_stress`. */
    method StressHandler(lib: Library, call: FunctionCall) returns (result: ToolResult)
      modifies this`stresses
      ensures StressCall(lib, old(CurrentSlots()), call) == Handled(CurrentSlots(), result)
    {
      if sec.None? {
        return ErrorCalling(call.name, NoneAttribute(CALCULATE_STRESS));
      }
      var computed := lib.calculateStress(sec.value, call.args);
      if computed.Failure? {
        return ErrorCalling(call.name, computed.error);
      }
      stresses := Some(computed.value);
      var stats := lib.summarizeStress(computed.value);
      if stats.Failure? {
        return ErrorCalling(call.name, stats.error);
      }
      result := Ok(STRESS_MESSAGE, StressDetails(stats.value, STRESS_NEXT));
    }

    /** `plot_stress`, with its guard on missing stresses. */
    method PlotHandler(lib: Library, call: FunctionCall) returns (result: ToolResult)
      modifies this`figures
      ensures PlotCall(lib, old(CurrentSlots()), call) == Handled(CurrentSlots(), result)
    {
      if stresses.None? {
        return Err(NO_STRESSES);
      }
      var plotted := lib.plotStress(stresses.value, call.args);
      if plotted.Failure? {
        return ErrorCalling(call.name, plotted.error);
      }
      figures := figures + [plotted.value];
      result := Ok("Plot of " + ToStr(Get(call.args, "plot_type")) + " stresses generated.",
                   PlotDetails(PLOT_DESCRIPTION, PLOT_CAPTION));
    }

    /** The handler chain for one function call: the globals lookup, then
        the first handler whose test the name passes, else the default
        error. */
    method DispatchCall(env: Env, call: FunctionCall) returns (raised: bool, result: ToolResult)
      modifies this
      ensures history == old(history) && toolLog == old(toolLog)
      ensures raised <==> Dispatch(env.classify, env.lib, old(CurrentSlots()), call).None?
      ensures raised ==> CurrentSlots() == old(CurrentSlots())
      ensures !raised ==> Dispatch(env.classify, env.lib, old(CurrentSlots()), call) == Some(Handled(CurrentSlots(), result))
    {
      result := NotAvailable(call.name);
      var kind := env.classify(call.name);
      if kind == NoModuleAttribute {
        return true, result;
      }
      raised := false;
      if kind == SteelSection {
        result := SteelSectionHandler(env.lib, call);
      } else if call.name == GEOMETRIC_PROPERTIES {
        result := PropertiesHandler(Geometric, env.lib, call);
      } else if call.name == WARPING_PROPERTIES {
        result := PropertiesHandler(Warping, env.lib, call);
      } else if call.name == CALCULATE_STRESS {
        result := StressHandler(env.lib, call);
      } else if call.name == PLOT_STRESS {
        result := PlotHandler(env.lib, call);
      }
    }

    /** Appends every part of a reply as its own model turn and collects
        the function calls among them. */
    method RecordParts(parts: seq<Part>) returns (functionCalls: seq<FunctionCall>)
      modifies this`history
      ensures history == old(history) + ModelTurns(parts)
      ensures functionCalls == Calls(parts)
    {
      functionCalls := [];
      for i := 0 to |parts|
        invariant history == old(history) + ModelTurns(parts[..i])
        invariant functionCalls == Calls(parts[..i])
      {
        assert parts[..i + 1][..i] == parts[..i];
        history := history + [Turn(Model, [parts[i]])];
        if parts[i].CallPart? {
          functionCalls := functionCalls + [parts[i].call];
        }
      }
      assert parts[..|parts|] == parts;
    }

    /** Logs and dispatches the calls in order, collecting one response part
        per call, until a lookup raises. */
    method DispatchCalls(env: Env, functionCalls: seq<FunctionCall>) returns (raised: bool, responseParts: seq<Part>)
      modifies this
      ensures history == old(history)
      ensures DispatchAll(env, old(toolLog), old(CurrentSlots()), functionCalls) ==
              Batch(toolLog, CurrentSlots(), responseParts, raised)
    {
      ghost var log0, slots0 := toolLog, CurrentSlots();
      responseParts := [];
      raised := false;
      var j := 0;
      while j < |functionCalls|
        invariant 0 <= j <= |functionCalls|
        invariant history == old(history)
        invariant DispatchAll(env, log0, slots0, functionCalls[..j]) == Batch(toolLog, CurrentSlots(), responseParts, false)
      {
        assert functionCalls[..j + 1][..j] == functionCalls[..j];
        var call := functionCalls[j];
        toolLog := toolLog + [call];
        var result;
        raised, result := DispatchCall(env, call);
        if raised {
          DispatchAllRaised(env, log0, slots0, functionCalls, j + 1);
          return;
        }
        responseParts := responseParts + [ResponsePart(call.name, result)];
        j := j + 1;
      }
      assert functionCalls[..|functionCalls|] == functionCalls;
    }

    /** One pass of the driver loop on the model's reply: `stop` is the
        ending when the loop ends here, otherwise `next` is the follow-up
        reply. */
    method RunIteration(env: Env, reply: Reply) returns (stop: Option<Ending>, next: Reply)
      modifies this
      ensures Iterate(env, old(Snapshot()), reply) ==
              if stop.Some? then Stop(Snapshot(), stop.value) else Continue(Snapshot(), next)
    {
      next := reply;
      if |reply.candidates| == 0 {
        return Some(NoCandidates), next;
      }
      var candidate := reply.candidates[0];
      if candidate.content.None? || candidate.content.value == [] {
        return Some(EmptyContent), next;
      }
      var parts := candidate.content.value;
      var functionCalls := RecordParts(parts);
      var raised, responseParts := DispatchCalls(env, functionCalls);
      if raised {
        return Some(LookupRaised), next;
      }
      if responseParts == [] {
        return Some(NoCalls), next;
      }
      history := history + [Turn(User, responseParts)];
      var outcome := env.generate(history);
      if outcome.ApiFailed? {
        history := history + [ErrorTurn(outcome.message)];
        return Some(ApiError), next;
      }
      return None, outcome.reply;
    }

    /** One iteration of the driver loop, stated against `Loop`. */
    method Advance(env: Env, response: Reply, fuelLeft: nat) returns (stop: Option<Ending>, next: Reply)
      requires fuelLeft > 0
      modifies this
      ensures stop.Some? ==> (Snapshot(), stop.value) == Loop(env, old(Snapshot()), response, fuelLeft)
      ensures stop.None? ==> Loop(env, Snapshot(), next, fuelLeft - 1) == Loop(env, old(Snapshot()), response, fuelLeft)
    {
      ghost var before := Snapshot();
      stop, next := RunIteration(env, response);
      if stop.Some? {
        LoopStops(env, before, response, fuelLeft, Snapshot(), stop.value);
      } else {
        LoopContinues(env, before, response, fuelLeft, Snapshot(), next);
      }
    }

    /** The `while response` loop, for at most `fuel` iterations. */
    method DriveLoop(env: Env, reply: Reply, fuel: nat) returns (ending: Ending)
      modifies this
      ensures (Snapshot(), ending) == Loop(env, old(Snapshot()), reply, fuel)
    {
      ghost var goal := Loop(env, Snapshot(), reply, fuel);
      var response := reply;
      var fuelLeft := fuel;
      while fuelLeft > 0
        invariant Loop(env, Snapshot(), response, fuelLeft) == goal
        decreases fuelLeft
      {
        var stop, next := Advance(env, response, fuelLeft);
        if stop.Some? {
          return stop.value;
        }
        response := next;
        fuelLeft := fuelLeft - 1;
      }
      return OutOfFuel;
    }

    /** `call_LLM` and the caller's assignment of its results: the whole
        exchange for one user prompt. */
    method CallLLM(env: Env, userPrompt: string, fuel: nat) returns (ending: Ending)
      modifies this
      ensures (Snapshot(), ending) == Converse(env, old(Snapshot()), userPrompt, fuel)
    {
      figures := [];
      history := history + [UserTurn(userPrompt)];
      var first := env.generate(history);
      if first.ApiFailed? {
        history := history + [ErrorTurn(first.message)];
        return ApiError;
      }
      var geom0, sec0, stresses0 := geom, sec, stresses;
      ending := DriveLoop(env, first.reply, fuel);
      if ending == LookupRaised {
        // the exception leaves call_LLM: the caller's assignment of the slots never runs
        geom, sec, stresses, figures := geom0, sec0, stresses0, [];
      }
    }
  }
}
