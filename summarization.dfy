/** The summarization chains: thin facades that pick default prompts, register the
    verbose handler and wrap a combine-document strategy in a second start/end pair
    on the same callback manager. */
module Summarization {
  import opened Wrappers
  import opened Callback
  import opened Prompt
  import opened LlmChain
  import opened CombineDocument

  /** Default prompt of the stuff summarization chain. */
  const PromptSummarizeStuff: string :=
    "Write a concise summary of the following:\n\"{{.text}}\"\nCONCISE SUMMARY:"

  /** Default map and reduce prompt of the map-reduce summarization chain (with its
      doubled closing quote and trailing tab, as written). */
  const PromptSummarizeMapReduce: string :=
    "Write a concise summary of the following:\n\"{{.text}}\"\"\nCONCISE SUMMARY:\n\t"

  /** The template key the default prompts refer to. */
  const DefaultKey: string := "text"

  /** The default token budget of the map-reduce chain. */
  const DefaultMaxToken: int := 1000

  // ----- Defaulting in the constructors -----

  /** The template and key handed to the stuff strategy. */
  datatype PromptChoice = PromptChoice(template: Option<Template>, key: string)

  /** An empty template string selects the default template and the key "text"; any
      other string is not parsed at all: the template stays nil and the caller's key
      is kept. Fails only when the default template does not parse. */
  function StuffPromptChoice(engine: Engine, promptTemplateString: string, promptTemplateKey: string): (r: Result<PromptChoice>)
    ensures r.Err? <==> promptTemplateString == "" && engine.parse(PromptSummarizeStuff).Some?
    ensures r.Err? ==> Some(r.error) == engine.parse(PromptSummarizeStuff)
    ensures r.Ok? ==> (r.value.template.Some? <==> promptTemplateString == "")
    ensures r.Ok? && promptTemplateString == "" ==>
      r.value == PromptChoice(Some(Template("stuff", PromptSummarizeStuff)), DefaultKey)
    ensures promptTemplateString != "" ==> r == Ok(PromptChoice(None, promptTemplateKey))
  {
    if promptTemplateString == "" then
      match NewPromptTemplate(engine, "stuff", PromptSummarizeStuff)
      case Err(e) => Err(e)
      case Ok(t) => Ok(PromptChoice(Some(t), DefaultKey))
    else
      Ok(PromptChoice(None, promptTemplateKey))
  }

  /** The map template, reduce template and key handed to the map-reduce strategy. */
  datatype MapReducePrompts = MapReducePrompts(mapPrompt: Option<Template>, reducePrompt: Option<Template>, key: string)

  /** The map template is chosen first: an empty map string selects the default
      template (named "map") and the key "text". Then an empty reduce string selects
      the same default body, also named "map", without touching the key. A non-empty
      string leaves its template nil and is never parsed. */
  function MapReducePromptChoice(engine: Engine, mapPromptString: string, reducePromptString: string,
                                 promptTemplateKey: string): (r: Result<MapReducePrompts>)
    ensures r.Err? <==>
      (mapPromptString == "" || reducePromptString == "") && engine.parse(PromptSummarizeMapReduce).Some?
    ensures r.Err? ==> Some(r.error) == engine.parse(PromptSummarizeMapReduce)
    ensures r.Ok? ==> r.value.mapPrompt ==
                      (if mapPromptString == "" then Some(Template("map", PromptSummarizeMapReduce)) else None)
    ensures r.Ok? ==> r.value.reducePrompt ==
                      (if reducePromptString == "" then Some(Template("map", PromptSummarizeMapReduce)) else None)
    ensures r.Ok? ==> r.value.key == if mapPromptString == "" then DefaultKey else promptTemplateKey
  {
    var mapChoice :=
      if mapPromptString == "" then
        match NewPromptTemplate(engine, "map", PromptSummarizeMapReduce)
        case Err(e) => Err(e)
        case Ok(t) => Ok(PromptChoice(Some(t), DefaultKey))
      else Ok(PromptChoice(None, promptTemplateKey));
    match mapChoice
    case Err(e) => Err(e)
    case Ok(m) =>
      if reducePromptString == "" then
        match NewPromptTemplate(engine, "map", PromptSummarizeMapReduce)
        case Err(e) => Err(e)
        case Ok(t) => Ok(MapReducePrompts(m.template, Some(t), m.key))
      else Ok(MapReducePrompts(m.template, None, m.key))
  }

  /** A token budget of 0 means "use the default"; every other value, negative ones
      included, is kept. */
  function MaxTokenOrDefault(maxToken: int): (r: int)
    ensures r != 0
    ensures maxToken != 0 ==> r == maxToken
    ensures maxToken == 0 ==> r == DefaultMaxToken
  {
    if maxToken == 0 then DefaultMaxToken else maxToken
  }

  /** The registry after the verbose flag has registered the logging handler `times` times. */
  function VerboseRegistered(handlers: map<Kind, seq<Handler>>, verbose: bool, times: nat): map<Kind, seq<Handler>>
  {
    if !verbose || times == 0 then handlers
    else Registered(VerboseRegistered(handlers, verbose, times - 1), ChainEnd, VerboseCallback)
  }

  /** With the flag set, ChainEnd gains exactly `times` logging handlers after those it
      had, and no other kind changes; without it the registry is unchanged. */
  lemma {:induction false} VerboseRegisteredHandlers(handlers: map<Kind, seq<Handler>>, verbose: bool, times: nat)
    ensures !verbose ==> VerboseRegistered(handlers, verbose, times) == handlers
    ensures var r := VerboseRegistered(handlers, verbose, times);
      HandlersFor(r, ChainStart) == HandlersFor(handlers, ChainStart) &&
      |HandlersFor(r, ChainEnd)| == |HandlersFor(handlers, ChainEnd)| + (if verbose then times else 0) &&
      HandlersFor(r, ChainEnd)[..|HandlersFor(handlers, ChainEnd)|] == HandlersFor(handlers, ChainEnd) &&
      forall i :: |HandlersFor(handlers, ChainEnd)| <= i < |HandlersFor(r, ChainEnd)| ==>
        HandlersFor(r, ChainEnd)[i] == VerboseCallback
    decreases times
  {
    if verbose && times > 0 {
      VerboseRegisteredHandlers(handlers, verbose, times - 1);
    }
  }

  // ----- Stuff summarization -----

  class StuffSummarizationChain {
    const stuffCombineDocument: StuffCombineDocument
    const manager: Manager

    /** The facade and its strategy report to the same manager. */
    ghost predicate Valid()
    {
      stuffCombineDocument.manager == manager
    }

    constructor (stuffCombineDocument: StuffCombineDocument, manager: Manager)
      requires stuffCombineDocument.manager == manager
      ensures this.stuffCombineDocument == stuffCombineDocument && this.manager == manager
      ensures Valid()
    {
      this.stuffCombineDocument := stuffCombineDocument;
      this.manager := manager;
    }

    method Run(input: map<string, string>) returns (output: Option<map<string, string>>, err: Option<Error>)
      requires Valid()
      modifies manager, stuffCombineDocument.llmChain
      ensures manager.handlers == old(manager.handlers)
      ensures "input" !in input ==>
        output == None && err == Some(MissingInput) && manager.trace == old(manager.trace) &&
        stuffCombineDocument.llmChain.calls == old(stuffCombineDocument.llmChain.calls)
      ensures "input" in input ==>
        var a := stuffCombineDocument.Combined([input["input"]]);
        output == Some(map["output" := a.output]) && err == a.err &&
        manager.trace == old(manager.trace) +
          Bracket(RunStart("StuffSummarizationChain.Run", input),
                  Bracket(RunStart("StuffCombineDocument.Run", input), [],
                          RunEnd("StuffCombineDocument.Run", input, output)),
                  RunEnd("StuffSummarizationChain.Run", input, output)) &&
        stuffCombineDocument.llmChain.calls ==
          old(stuffCombineDocument.llmChain.calls) + stuffCombineDocument.ModelCalls([input["input"]])
      ensures "input" in input ==> WellNested(manager.trace[|old(manager.trace)|..])
    {
      output := None;
      if "input" !in input {
        err := Some(MissingInput);
        return;
      }
      manager.TriggerEvent(ChainStart, RunStart("StuffSummarizationChain.Run", input));
      output, err := stuffCombineDocument.Run(input);
      manager.TriggerEvent(ChainEnd, RunEnd("StuffSummarizationChain.Run", input, output));
      NestedBracket(RunStart("StuffSummarizationChain.Run", input), RunStart("StuffCombineDocument.Run", input),
                    RunEnd("StuffCombineDocument.Run", input, output), RunEnd("StuffSummarizationChain.Run", input, output));
      assert manager.trace[|old(manager.trace)|..] ==
        Bracket(RunStart("StuffSummarizationChain.Run", input),
                Bracket(RunStart("StuffCombineDocument.Run", input), [], RunEnd("StuffCombineDocument.Run", input, output)),
                RunEnd("StuffSummarizationChain.Run", input, output));
    }

    method SimpleRun(input: string) returns (output: string, err: Option<Error>)
      requires Valid()
      modifies manager, stuffCombineDocument.llmChain
      ensures manager.handlers == old(manager.handlers)
      ensures output == stuffCombineDocument.Combined([input]).output
      ensures err == stuffCombineDocument.Combined([input]).err
      ensures manager.trace == old(manager.trace) +
        Bracket(SimpleRunData("StuffSummarizationChain.SimpleRun", input, ""),
                Bracket(SimpleRunData("StuffCombineDocument.SimpleRun", input, ""), [],
                        SimpleRunData("StuffCombineDocument.SimpleRun", input, output)),
                SimpleRunData("StuffSummarizationChain.SimpleRun", input, output))
      ensures stuffCombineDocument.llmChain.calls ==
        old(stuffCombineDocument.llmChain.calls) + stuffCombineDocument.ModelCalls([input])
      ensures WellNested(manager.trace[|old(manager.trace)|..])
    {
      manager.TriggerEvent(ChainStart, SimpleRunData("StuffSummarizationChain.SimpleRun", input, ""));
      output, err := stuffCombineDocument.SimpleRun(input);
      manager.TriggerEvent(ChainEnd, SimpleRunData("StuffSummarizationChain.SimpleRun", input, output));
      NestedBracket(SimpleRunData("StuffSummarizationChain.SimpleRun", input, ""),
                    SimpleRunData("StuffCombineDocument.SimpleRun", input, ""),
                    SimpleRunData("StuffCombineDocument.SimpleRun", input, output),
                    SimpleRunData("StuffSummarizationChain.SimpleRun", input, output));
      assert manager.trace[|old(manager.trace)|..] ==
        Bracket(SimpleRunData("StuffSummarizationChain.SimpleRun", input, ""),
                Bracket(SimpleRunData("StuffCombineDocument.SimpleRun", input, ""), [],
                        SimpleRunData("StuffCombineDocument.SimpleRun", input, output)),
                SimpleRunData("StuffSummarizationChain.SimpleRun", input, output));
    }
  }

  /** An outer start/end pair around an inner one is well-nested when each pair's
      events name the same function. */
  lemma NestedBracket(outerStart: CallbackData, innerStart: CallbackData, innerEnd: CallbackData, outerEnd: CallbackData)
    requires outerStart.functionName == outerEnd.functionName
    requires innerStart.functionName == innerEnd.functionName
    ensures WellNested(Bracket(outerStart, Bracket(innerStart, [], innerEnd), outerEnd))
  {
    assert WellNested([]);
    WrapNested(innerStart, [], innerEnd);
    WrapNested(outerStart, Bracket(innerStart, [], innerEnd), outerEnd);
  }

  /** NewStuffSummarizationChain. The verbose handler is registered before the default
      template is built and again by the stuff strategy's constructor. */
  method NewStuffSummarizationChain(llmChain: LlmChain, manager: Manager, engine: Engine,
                                    promptTemplateString: string, promptTemplateKey: string, verbose: bool)
    returns (s: StuffSummarizationChain?, err: Option<Error>)
    modifies manager
    ensures manager.trace == old(manager.trace)
    ensures var c := StuffPromptChoice(engine, promptTemplateString, promptTemplateKey);
      c.Err? ==> s == null && err == Some(c.error) &&
                 manager.handlers == VerboseRegistered(old(manager.handlers), verbose, 1)
    ensures var c := StuffPromptChoice(engine, promptTemplateString, promptTemplateKey);
      c.Ok? ==> err == None && s != null && fresh(s) && fresh(s.stuffCombineDocument) && s.Valid() &&
                s.manager == manager &&
                s.stuffCombineDocument.prompt == c.value.template &&
                s.stuffCombineDocument.promptTemplateKey == c.value.key &&
                s.stuffCombineDocument.llmChain == llmChain &&
                s.stuffCombineDocument.engine == engine &&
                manager.handlers == VerboseRegistered(old(manager.handlers), verbose, 2)
  {
    s := null;
    err := None;
    ghost var before := manager.handlers;
    if verbose {
      manager.RegisterCallback(ChainEnd, VerboseCallback);
    }
    assert manager.handlers == VerboseRegistered(before, verbose, 1);
    var promptTemplate: Option<Template> := None;
    var key := promptTemplateKey;
    if promptTemplateString == "" {
      match NewPromptTemplate(engine, "stuff", PromptSummarizeStuff) {
        case Err(e) =>
          err := Some(e);
          return;
        case Ok(t) =>
          promptTemplate := Some(t);
      }
      key := DefaultKey;
    }
    var stuff := new StuffCombineDocument(manager, promptTemplate, key, llmChain, engine, verbose);
    s := new StuffSummarizationChain(stuff, manager);
    assert manager.handlers == VerboseRegistered(before, verbose, 2);
  }

  // ----- Map-reduce summarization -----

  class MapReduceSummarizationChain {
    const mapReduceCombineDocument: MapReduceCombineDocument
    const manager: Manager

    /** The facade and its delegate report to the same manager. */
    ghost predicate Valid()
    {
      mapReduceCombineDocument.manager == manager
    }

    constructor (mapReduceCombineDocument: MapReduceCombineDocument, manager: Manager)
      requires mapReduceCombineDocument.manager == manager
      ensures this.mapReduceCombineDocument == mapReduceCombineDocument && this.manager == manager
      ensures Valid()
    {
      this.mapReduceCombineDocument := mapReduceCombineDocument;
      this.manager := manager;
    }

    method Run(input: map<string, string>) returns (output: Option<map<string, string>>, err: Option<Error>)
      requires Valid()
      modifies manager, mapReduceCombineDocument, mapReduceCombineDocument.llmChain
      ensures manager.handlers == old(manager.handlers)
      ensures "input" !in input ==>
        output == None && err == Some(MissingInput) && manager.trace == old(manager.trace) &&
        mapReduceCombineDocument.invocations == old(mapReduceCombineDocument.invocations) &&
        mapReduceCombineDocument.llmChain.calls == old(mapReduceCombineDocument.llmChain.calls)
      ensures "input" in input ==>
        mapReduceCombineDocument.llmChain.calls ==
          old(mapReduceCombineDocument.llmChain.calls) + mapReduceCombineDocument.runPrompts(input)
      ensures "input" in input ==>
        output == mapReduceCombineDocument.run(input).output &&
        err == mapReduceCombineDocument.run(input).err &&
        manager.trace == old(manager.trace) +
          Bracket(RunStart("MapReduceSummarizationChain.Run", input),
                  mapReduceCombineDocument.runEvents(input),
                  RunEnd("MapReduceSummarizationChain.Run", input, output)) &&
        mapReduceCombineDocument.invocations == old(mapReduceCombineDocument.invocations) + [RunCall(input)]
      ensures "input" in input && WellNested(mapReduceCombineDocument.runEvents(input)) ==>
        WellNested(manager.trace[|old(manager.trace)|..])
    {
      output := None;
      if "input" !in input {
        err := Some(MissingInput);
        return;
      }
      manager.TriggerEvent(ChainStart, RunStart("MapReduceSummarizationChain.Run", input));
      output, err := mapReduceCombineDocument.Run(input);
      manager.TriggerEvent(ChainEnd, RunEnd("MapReduceSummarizationChain.Run", input, output));
      assert manager.trace[|old(manager.trace)|..] ==
        Bracket(RunStart("MapReduceSummarizationChain.Run", input), mapReduceCombineDocument.runEvents(input),
                RunEnd("MapReduceSummarizationChain.Run", input, output));
      if WellNested(mapReduceCombineDocument.runEvents(input)) {
        WrapNested(RunStart("MapReduceSummarizationChain.Run", input), mapReduceCombineDocument.runEvents(input),
                   RunEnd("MapReduceSummarizationChain.Run", input, output));
      }
    }

    method SimpleRun(input: string) returns (output: string, err: Option<Error>)
      requires Valid()
      modifies manager, mapReduceCombineDocument, mapReduceCombineDocument.llmChain
      ensures manager.handlers == old(manager.handlers)
      ensures output == mapReduceCombineDocument.simpleRun(input).output
      ensures mapReduceCombineDocument.llmChain.calls ==
        old(mapReduceCombineDocument.llmChain.calls) + mapReduceCombineDocument.simpleRunPrompts(input)
      ensures err == mapReduceCombineDocument.simpleRun(input).err
      ensures manager.trace == old(manager.trace) +
        Bracket(SimpleRunData("MapReduceSummarizationChain.SimpleRun", input, ""),
                mapReduceCombineDocument.simpleRunEvents(input),
                SimpleRunData("MapReduceSummarizationChain.SimpleRun", input, output))
      ensures mapReduceCombineDocument.invocations ==
        old(mapReduceCombineDocument.invocations) + [SimpleRunCall(input)]
      ensures WellNested(mapReduceCombineDocument.simpleRunEvents(input)) ==>
        WellNested(manager.trace[|old(manager.trace)|..])
    {
      manager.TriggerEvent(ChainStart, SimpleRunData("MapReduceSummarizationChain.SimpleRun", input, ""));
      output, err := mapReduceCombineDocument.SimpleRun(input);
      manager.TriggerEvent(ChainEnd, SimpleRunData("MapReduceSummarizationChain.SimpleRun", input, output));
      assert manager.trace[|old(manager.trace)|..] ==
        Bracket(SimpleRunData("MapReduceSummarizationChain.SimpleRun", input, ""),
                mapReduceCombineDocument.simpleRunEvents(input),
                SimpleRunData("MapReduceSummarizationChain.SimpleRun", input, output));
      if WellNested(mapReduceCombineDocument.simpleRunEvents(input)) {
        WrapNested(SimpleRunData("MapReduceSummarizationChain.SimpleRun", input, ""),
                   mapReduceCombineDocument.simpleRunEvents(input),
                   SimpleRunData("MapReduceSummarizationChain.SimpleRun", input, output));
      }
    }
  }

  /** NewMapReduceSummarizationChain. The verbose handler is registered first, so it stays
      registered even when building a default template fails and no chain is returned;
      the strategy's constructor registers it a second time. `run`, `simpleRun`,
      `runEvents`, `simpleRunEvents`, `runPrompts` and `simpleRunPrompts` stand for what
      the map-reduce strategy does. */
  method NewMapReduceSummarizationChain(llmChain: LlmChain, manager: Manager, engine: Engine,
                                        mapPromptString: string, reducePromptString: string,
                                        promptTemplateKey: string, splitter: string -> seq<string>,
                                        maxToken: int, verbose: bool,
                                        run: map<string, string> -> MapAnswer, simpleRun: string -> Answer,
                                        runEvents: map<string, string> -> seq<Event>,
                                        simpleRunEvents: string -> seq<Event>,
                                        runPrompts: map<string, string> -> seq<string>,
                                        simpleRunPrompts: string -> seq<string>)
    returns (m: MapReduceSummarizationChain?, err: Option<Error>)
    modifies manager
    ensures manager.trace == old(manager.trace)
    ensures var c := MapReducePromptChoice(engine, mapPromptString, reducePromptString, promptTemplateKey);
      c.Err? ==> m == null && err == Some(c.error) &&
                 manager.handlers == VerboseRegistered(old(manager.handlers), verbose, 1)
    ensures var c := MapReducePromptChoice(engine, mapPromptString, reducePromptString, promptTemplateKey);
      c.Ok? ==> err == None && m != null && fresh(m) && fresh(m.mapReduceCombineDocument) &&
                m.manager == manager && m.Valid() &&
                manager.handlers == VerboseRegistered(old(manager.handlers), verbose, 2) &&
                var d := m.mapReduceCombineDocument;
                d.mapPrompt == c.value.mapPrompt && d.reducePrompt == c.value.reducePrompt &&
                d.promptTemplateKey == c.value.key && d.llmChain == llmChain &&
                d.splitter == splitter && d.maxToken == MaxTokenOrDefault(maxToken) &&
                d.verbose == verbose && d.run == run && d.simpleRun == simpleRun &&
                d.runEvents == runEvents && d.simpleRunEvents == simpleRunEvents &&
                d.runPrompts == runPrompts && d.simpleRunPrompts == simpleRunPrompts && d.invocations == []
  {
    m := null;
    err := None;
    ghost var before := manager.handlers;
    if verbose {
      manager.RegisterCallback(ChainEnd, VerboseCallback);
    }
    assert manager.handlers == VerboseRegistered(before, verbose, 1);
    var promptTemplateMap: Option<Template> := None;
    var promptTemplateReduce: Option<Template> := None;
    var key := promptTemplateKey;
    if mapPromptString == "" {
      match NewPromptTemplate(engine, "map", PromptSummarizeMapReduce) {
        case Err(e) =>
          err := Some(e);
          return;
        case Ok(t) =>
          promptTemplateMap := Some(t);
      }
      key := DefaultKey;
    }
    if reducePromptString == "" {
      match NewPromptTemplate(engine, "map", PromptSummarizeMapReduce) {
        case Err(e) =>
          err := Some(e);
          return;
        case Ok(t) =>
          promptTemplateReduce := Some(t);
      }
    }
    var budget := maxToken;
    if budget == 0 {
      budget := DefaultMaxToken;
    }
    var delegate := new MapReduceCombineDocument(promptTemplateMap, promptTemplateReduce, key, llmChain,
                                                 splitter, budget, manager, verbose, run, simpleRun,
                                                 runEvents, simpleRunEvents, runPrompts, simpleRunPrompts);
    m := new MapReduceSummarizationChain(delegate, manager);
    assert manager.handlers == VerboseRegistered(before, verbose, 2);
  }
}
