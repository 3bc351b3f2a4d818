/** The combine-document strategies: the stuff strategy, which concatenates every
    fragment and makes one model call, and the map-reduce strategy, whose algorithm is
    not part of this model and which appears here only as an opaque delegate. */
module CombineDocument {
  import opened Wrappers
  import opened Callback
  import opened Prompt
  import opened LlmChain

  // ----- Concatenation of the fragments -----

  /** Sum of the fragment lengths. */
  function TotalLength(docs: seq<string>): nat
  {
    if docs == [] then 0 else |docs[0]| + TotalLength(docs[1..])
  }

  /** Every fragment followed by a line break, in input order. */
  function Concat(docs: seq<string>): (r: string)
    ensures |r| == TotalLength(docs) + |docs|
  {
    if docs == [] then "" else docs[0] + "\n" + Concat(docs[1..])
  }

  /** The usual separator join, with no separator after the last item. */
  function Join(docs: seq<string>, sep: string): string
  {
    if docs == [] then ""
    else if |docs| == 1 then docs[0]
    else docs[0] + sep + Join(docs[1..], sep)
  }

  /** Concatenation distributes over appending fragment lists. */
  lemma {:induction false} ConcatAppend(a: seq<string>, b: seq<string>)
    ensures Concat(a + b) == Concat(a) + Concat(b)
    decreases |a|
  {
    if a == [] {
      assert a + b == b;
    } else {
      assert (a + b)[0] == a[0] && (a + b)[1..] == a[1..] + b;
      ConcatAppend(a[1..], b);
    }
  }

  /** Fragment `i` sits, followed by its line break, between the fragments before it
      and the fragments after it. */
  lemma {:induction false} ConcatAt(docs: seq<string>, i: nat)
    requires i < |docs|
    ensures Concat(docs) == Concat(docs[..i]) + docs[i] + "\n" + Concat(docs[i + 1..])
  {
    var tail := docs[i..];
    assert docs == docs[..i] + tail;
    ConcatAppend(docs[..i], tail);
    assert tail[0] == docs[i] && tail[1..] == docs[i + 1..];
    assert Concat(tail) == docs[i] + "\n" + Concat(docs[i + 1..]);
  }

  /** A non-empty fragment list concatenates to the fragments joined with line breaks,
      plus one trailing line break. */
  lemma {:induction false} ConcatIsJoin(docs: seq<string>)
    requires docs != []
    ensures Concat(docs) == Join(docs, "\n") + "\n"
    decreases |docs|
  {
    if |docs| > 1 {
      ConcatIsJoin(docs[1..]);
    }
  }

  // ----- Splitting back into lines: the inverse of Concat -----

  /** Index of the first line break of `s`, or `|s|` when there is none. */
  function FirstNewline(s: string): (k: nat)
    ensures k <= |s|
    ensures k < |s| ==> s[k] == '\n'
    ensures forall i :: 0 <= i < k ==> s[i] != '\n'
  {
    if s == [] then 0
    else if s[0] == '\n' then 0
    else 1 + FirstNewline(s[1..])
  }

  /** The lines of `s`, each line ended by a line break (an unterminated tail is a last line). */
  function Lines(s: string): seq<string>
    decreases |s|
  {
    if s == [] then []
    else
      var k := FirstNewline(s);
      if k == |s| then [s] else [s[..k]] + Lines(s[k + 1..])
  }

  /** Concatenated fragments that hold no line break split back into exactly those
      fragments: Concat loses neither fragments nor their order. */
  lemma {:induction false} LinesConcat(docs: seq<string>)
    requires forall i :: 0 <= i < |docs| ==> '\n' !in docs[i]
    ensures Lines(Concat(docs)) == docs
    decreases |docs|
  {
    if docs != [] {
      var d, s := docs[0], Concat(docs);
      assert s == d + "\n" + Concat(docs[1..]);
      var k := FirstNewline(s);
      assert s[|d|] == '\n';
      assert k == |d|;
      assert s[..k] == d;
      assert s[k + 1..] == Concat(docs[1..]);
      LinesConcat(docs[1..]);
    }
  }

  // ----- The stuff strategy -----

  /** The four event payloads of the chains' Run and SimpleRun. Run reports the caller's
      map and a nil output at the start; SimpleRun wraps its strings in one-entry maps. */
  function RunStart(name: string, input: map<string, string>): CallbackData
  {
    CallbackData(name, Some(input), None)
  }

  function RunEnd(name: string, input: map<string, string>, output: Option<map<string, string>>): CallbackData
  {
    CallbackData(name, Some(input), output)
  }

  function SimpleRunData(name: string, input: string, output: string): CallbackData
  {
    CallbackData(name, Some(map["input" := input]), Some(map["output" := output]))
  }

  /** A start event, the events of the call it wraps, and an end event. */
  function Bracket(start: CallbackData, inner: seq<Event>, end: CallbackData): seq<Event>
  {
    [Event(ChainStart, start)] + inner + [Event(ChainEnd, end)]
  }

  class StuffCombineDocument {
    const prompt: Option<Template>
    const llmChain: LlmChain
    const manager: Manager
    const promptTemplateKey: string
    /** The template engine used to render `prompt`. */
    const engine: Engine

    constructor (manager: Manager, prompt: Option<Template>, templateKey: string,
                 llmChain: LlmChain, engine: Engine, verbose: bool)
      modifies manager
      ensures this.manager == manager && this.prompt == prompt && this.promptTemplateKey == templateKey
      ensures this.llmChain == llmChain && this.engine == engine
      ensures manager.handlers ==
        if verbose then Registered(old(manager.handlers), ChainEnd, VerboseCallback) else old(manager.handlers)
      ensures manager.trace == old(manager.trace)
    {
      if verbose {
        manager.RegisterCallback(ChainEnd, VerboseCallback);
      }
      this.prompt := prompt;
      this.llmChain := llmChain;
      this.manager := manager;
      this.promptTemplateKey := templateKey;
      this.engine := engine;
    }

    /** The template data: one entry, the template key mapped to the concatenation. */
    function TemplateData(docs: seq<string>): map<string, string>
    {
      map[promptTemplateKey := Concat(docs)]
    }

    /** The prompt rendered from the concatenated fragments, or the render error. */
    function Rendered(docs: seq<string>): Result<string>
    {
      engine.execute(prompt, TemplateData(docs))
    }

    /** What Combine returns. */
    function Combined(docs: seq<string>): Answer
    {
      match Rendered(docs)
      case Err(e) => Answer("", Some(e))
      case Ok(p) => llmChain.respond(p)
    }

    /** The prompts Combine passes to the model. */
    function ModelCalls(docs: seq<string>): seq<string>
    {
      match Rendered(docs)
      case Err(_) => []
      case Ok(p) => [p]
    }

    method Combine(docs: seq<string>) returns (output: string, err: Option<Error>)
      modifies llmChain
      ensures Rendered(docs).Err? ==>
        output == "" && err == Some(Rendered(docs).error) && llmChain.calls == old(llmChain.calls)
      ensures Rendered(docs).Ok? ==>
        var p := Rendered(docs).value;
        output == llmChain.respond(p).output && err == llmChain.respond(p).err &&
        llmChain.calls == old(llmChain.calls) + [p]
    {
      var doc := "";
      var i := 0;
      while i < |docs|
        invariant 0 <= i <= |docs|
        invariant doc == Concat(docs[..i])
        modifies {}
      {
        ConcatAppend(docs[..i], [docs[i]]);
        assert docs[..i + 1] == docs[..i] + [docs[i]];
        doc := doc + docs[i] + "\n";
        i := i + 1;
      }
      assert docs[..i] == docs;
      var templateData := map[promptTemplateKey := doc];
      var rendered := engine.execute(prompt, templateData);
      output := "";
      match rendered {
        case Err(e) =>
          err := Some(e);
        case Ok(p) =>
          output, err := llmChain.SimpleRun(p);
      }
    }

    method Run(input: map<string, string>) returns (output: Option<map<string, string>>, err: Option<Error>)
      modifies manager, llmChain
      ensures manager.handlers == old(manager.handlers)
      ensures "input" !in input ==>
        output == None && err == Some(MissingInput) &&
        manager.trace == old(manager.trace) && llmChain.calls == old(llmChain.calls)
      ensures "input" in input ==>
        var a := Combined([input["input"]]);
        output == Some(map["output" := a.output]) && err == a.err &&
        manager.trace == old(manager.trace) +
          Bracket(RunStart("StuffCombineDocument.Run", input), [], RunEnd("StuffCombineDocument.Run", input, output)) &&
        llmChain.calls == old(llmChain.calls) + ModelCalls([input["input"]])
    {
      output := None;
      if "input" !in input {
        err := Some(MissingInput);
        return;
      }
      manager.TriggerEvent(ChainStart, RunStart("StuffCombineDocument.Run", input));
      var combined;
      combined, err := Combine([input["input"]]);
      output := Some(map["output" := combined]);
      manager.TriggerEvent(ChainEnd, RunEnd("StuffCombineDocument.Run", input, output));
    }

    method SimpleRun(input: string) returns (output: string, err: Option<Error>)
      modifies manager, llmChain
      ensures manager.handlers == old(manager.handlers)
      ensures output == Combined([input]).output && err == Combined([input]).err
      ensures manager.trace == old(manager.trace) +
        Bracket(SimpleRunData("StuffCombineDocument.SimpleRun", input, ""), [],
                SimpleRunData("StuffCombineDocument.SimpleRun", input, output))
      ensures llmChain.calls == old(llmChain.calls) + ModelCalls([input])
    {
      manager.TriggerEvent(ChainStart, SimpleRunData("StuffCombineDocument.SimpleRun", input, ""));
      output, err := Combine([input]);
      manager.TriggerEvent(ChainEnd, SimpleRunData("StuffCombineDocument.SimpleRun", input, output));
    }
  }

  // ----- The map-reduce strategy, as an opaque delegate -----

  /** A call made on the delegate. */
  datatype Invocation = RunCall(input: map<string, string>) | SimpleRunCall(text: string)

  /** MapReduceCombineDocument: keeps its configuration; what its Run and SimpleRun
      compute (split, map, reduce) is given by the oracles `run` and `simpleRun`, the
      events they trigger on the shared manager by `runEvents` and `simpleRunEvents`,
      and the prompts they send to the model by `runPrompts` and `simpleRunPrompts`. */
  class MapReduceCombineDocument {
    const mapPrompt: Option<Template>
    const reducePrompt: Option<Template>
    const promptTemplateKey: string
    const llmChain: LlmChain
    const splitter: string -> seq<string>
    const maxToken: int
    const manager: Manager
    const verbose: bool
    const run: map<string, string> -> MapAnswer
    const simpleRun: string -> Answer
    const runEvents: map<string, string> -> seq<Event>
    const simpleRunEvents: string -> seq<Event>
    const runPrompts: map<string, string> -> seq<string>
    const simpleRunPrompts: string -> seq<string>
    /** The calls made on this delegate, oldest first. */
    var invocations: seq<Invocation>

    /** Like every strategy, registers the logging handler under ChainEnd when verbose. */
    constructor (mapPrompt: Option<Template>, reducePrompt: Option<Template>, promptTemplateKey: string,
                 llmChain: LlmChain, splitter: string -> seq<string>, maxToken: int, manager: Manager,
                 verbose: bool, run: map<string, string> -> MapAnswer, simpleRun: string -> Answer,
                 runEvents: map<string, string> -> seq<Event>, simpleRunEvents: string -> seq<Event>,
                 runPrompts: map<string, string> -> seq<string>, simpleRunPrompts: string -> seq<string>)
      modifies manager
      ensures this.mapPrompt == mapPrompt && this.reducePrompt == reducePrompt
      ensures this.promptTemplateKey == promptTemplateKey && this.llmChain == llmChain
      ensures this.splitter == splitter && this.maxToken == maxToken
      ensures this.manager == manager && this.verbose == verbose
      ensures this.run == run && this.simpleRun == simpleRun
      ensures this.runEvents == runEvents && this.simpleRunEvents == simpleRunEvents
      ensures this.runPrompts == runPrompts && this.simpleRunPrompts == simpleRunPrompts
      ensures invocations == []
      ensures manager.handlers ==
        if verbose then Registered(old(manager.handlers), ChainEnd, VerboseCallback) else old(manager.handlers)
      ensures manager.trace == old(manager.trace)
    {
      if verbose {
        manager.RegisterCallback(ChainEnd, VerboseCallback);
      }
      this.mapPrompt := mapPrompt;
      this.reducePrompt := reducePrompt;
      this.promptTemplateKey := promptTemplateKey;
      this.llmChain := llmChain;
      this.splitter := splitter;
      this.maxToken := maxToken;
      this.manager := manager;
      this.verbose := verbose;
      this.run := run;
      this.simpleRun := simpleRun;
      this.runEvents := runEvents;
      this.simpleRunEvents := simpleRunEvents;
      this.runPrompts := runPrompts;
      this.simpleRunPrompts := simpleRunPrompts;
      invocations := [];
    }

    method Run(input: map<string, string>) returns (output: Option<map<string, string>>, err: Option<Error>)
      modifies this, manager, llmChain
      ensures output == run(input).output && err == run(input).err
      ensures llmChain.calls == old(llmChain.calls) + runPrompts(input)
      ensures invocations == old(invocations) + [RunCall(input)]
      ensures manager.trace == old(manager.trace) + runEvents(input)
      ensures manager.handlers == old(manager.handlers)
    {
      output, err := run(input).output, run(input).err;
      invocations := invocations + [RunCall(input)];
      // The events the strategy triggers on the shared manager, in order.
      manager.trace := manager.trace + runEvents(input);
      // The prompts the strategy sends to the model (map and reduce calls), in order.
      llmChain.calls := llmChain.calls + runPrompts(input);
    }

    method SimpleRun(input: string) returns (output: string, err: Option<Error>)
      modifies this, manager, llmChain
      ensures output == simpleRun(input).output && err == simpleRun(input).err
      ensures llmChain.calls == old(llmChain.calls) + simpleRunPrompts(input)
      ensures invocations == old(invocations) + [SimpleRunCall(input)]
      ensures manager.trace == old(manager.trace) + simpleRunEvents(input)
      ensures manager.handlers == old(manager.handlers)
    {
      output, err := simpleRun(input).output, simpleRun(input).err;
      invocations := invocations + [SimpleRunCall(input)];
      // The events the strategy triggers on the shared manager, in order.
      manager.trace := manager.trace + simpleRunEvents(input);
      llmChain.calls := llmChain.calls + simpleRunPrompts(input);
    }
  }
}
