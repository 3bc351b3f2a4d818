# gochain document combination, modelled in Dafny

This project models the document-combination layer of gochain, a Go library for
language-model pipelines. It covers:

- the **stuff strategy** (`StuffCombineDocument`). It concatenates every fragment, each
  followed by a line break, renders one prompt from the result and makes one model call.
- the **summarization chains** (`StuffSummarizationChain`, `MapReduceSummarizationChain`).
  Their constructors choose default prompts, keys and token budgets and register the
  verbose logging handler. Their `Run`/`SimpleRun` wrap the strategy in a second
  start/end event pair on the same callback manager.
- the **event protocol** of the callback manager: which ChainStart/ChainEnd events fire,
  in what order and with what payload. Both facades' traces are proved to nest. For the
  map-reduce facade this holds whenever the delegate's own events nest.

Layout, one module per file:

- `wrappers.dfy` (`Wrappers`): `Option`, `Result`, the error kinds, and Go's
  `(output, err)` pairs (`Answer`, `MapAnswer`). The output of a pair is kept even when
  `err` is set, as in Go. `None` stands for a nil map.
- `callback.dfy` (`Callback`): the `Manager` class. It holds a registry from event kind
  to handler sequence and a trace of triggered events. `Close` and `WellNested` read a
  trace as matched start/end brackets.
- `prompt.dfy` (`Prompt`): templates, and the template engine as an oracle pair
  (`parse`, `execute`).
- `llm_chain.dfy` (`LlmChain`): the model-calling chain. It answers through an oracle
  and logs every prompt it receives.
- `combine_document.dfy` (`CombineDocument`): `Concat` and its lemmas, with
  `Lines` as its inverse; the stuff strategy class; the map-reduce strategy as an
  opaque delegate class.
- `summarization.dfy` (`Summarization`): the default selections as pure functions, the
  two facade classes and their constructor functions.
- `combine_document_examples.dfy`: the cases of `combine_doc_test.go`, checked against
  the model with an echoing engine and model.

Collaborators whose code is not part of this model are parameters:

- the template engine, as `Prompt.Engine`;
- the model's answer, as `LlmChain.respond`;
- the text splitter, as a function stored unchanged;
- what the map-reduce strategy computes, as `run` and `simpleRun`;
- the events it triggers on the shared manager, as `runEvents` and `simpleRunEvents`;
- the prompts it sends to the model, as `runPrompts` and `simpleRunPrompts`. They are logged
  like the stuff strategy's calls.

Each oracle is a total function, so the same input always gives the same answer.

## Model

| member | source | states |
|---|---|---|
| `Callback.Manager.RegisterCallback` | chain/combine_document/stuff.go:30 | registration appends the handler to the given kind's sequence, leaves the other kinds and the trace unchanged |
| `Callback.Manager.TriggerEvent` | chain/combine_document/stuff.go:65-69 | triggering appends exactly one event (kind and payload) to the trace and leaves the registry unchanged |
| `Callback.WrapNested` | chain/summarization/stuff_summarization.go:61-74 | a start and an end of the same function around a well-nested trace give a well-nested trace: each end closes the innermost open start |
| `LlmChain.LlmChain.SimpleRun` | chain/combine_document/stuff.go:54 | the model's output and error are returned as the model gave them, and the prompt is logged as one more model call |
| `CombineDocument.Concat` | chain/combine_document/stuff.go:44-47 | the concatenation's length is the sum of the fragment lengths plus the number of fragments |
| `CombineDocument.ConcatAppend` | chain/combine_document/stuff.go:44-47 | concatenating two fragment lists in turn gives the two concatenations one after the other |
| `CombineDocument.ConcatAt` | chain/combine_document/stuff.go:44-47 | every fragment appears followed by its line break, after all earlier fragments and before all later ones |
| `CombineDocument.ConcatIsJoin` | chain/combine_document/stuff.go:44-47 | a non-empty list concatenates to the fragments joined by line breaks plus a trailing line break |
| `CombineDocument.LinesConcat` | chain/combine_document/stuff.go:44-47 | splitting the concatenation at line breaks gives back exactly the fragments, in order, when no fragment holds a line break |
| `CombineDocument.StuffCombineDocument.constructor` | chain/combine_document/stuff.go:26-39 | fields are stored as given; verbose adds exactly one ChainEnd handler and otherwise the registry is unchanged; no event fires |
| `CombineDocument.StuffCombineDocument.Combine` | chain/combine_document/stuff.go:42-57 | the template data is the single entry key to concatenation; a render error is returned with output "" and no model call; otherwise the model is called once with exactly the rendered prompt and its output and error are returned |
| `CombineDocument.StuffCombineDocument.Run` | chain/combine_document/stuff.go:60-81 | without "input": nil output, the missing-input error, no event and no model call; otherwise the output map is exactly {"output": Combine of the one input fragment}, other keys ignored, the error is Combine's, and the trace gains exactly ChainStart (nil output) then ChainEnd (the output map), also when Combine fails |
| `CombineDocument.StuffCombineDocument.SimpleRun` | chain/combine_document/stuff.go:84-101 | no validation; the trace gains ChainStart with output "" then ChainEnd with the result; the result is Combine of the one input fragment |
| `CombineDocument.MapReduceCombineDocument.constructor` | chain/summarization/mapreduce_summarization.go:62-63 | the delegate keeps the prompts, key, model chain, splitter, budget, manager and verbose flag it is given; with verbose it adds exactly one ChainEnd handler on that manager, as the stuff strategy does; no event fires |
| `CombineDocument.MapReduceCombineDocument.Run` | chain/summarization/mapreduce_summarization.go:85 | the delegate's result is its oracle's; its own events are appended to the shared manager's trace; its model prompts are appended to the model chain's call log; the call is logged; the registry is unchanged |
| `CombineDocument.MapReduceCombineDocument.SimpleRun` | chain/summarization/mapreduce_summarization.go:106 | the delegate's string result is its oracle's; its own events are appended to the shared manager's trace; its model prompts are appended to the model chain's call log; the call is logged |
| `Summarization.StuffPromptChoice` | chain/summarization/stuff_summarization.go:35-45 | an empty template string selects the "stuff" default template and forces the key to "text"; a non-empty one is never parsed, leaving a nil template and the caller's key; the only failure is the default template failing to parse |
| `Summarization.MapReducePromptChoice` | chain/summarization/mapreduce_summarization.go:41-56 | an empty map string selects the default template and forces the key to "text"; an empty reduce string selects the same default body and never changes the key; non-empty strings give nil templates; failure exactly when a default is needed and does not parse |
| `Summarization.MaxTokenOrDefault` | chain/summarization/mapreduce_summarization.go:58-60 | a budget of 0 becomes 1000; every other value, negative ones included, is kept; the result is never 0 |
| `Summarization.VerboseRegisteredHandlers` | chain/summarization/stuff_summarization.go:31-33 | registering the verbose handler n times adds exactly n logging handlers after the existing ChainEnd handlers and leaves ChainStart unchanged; without verbose nothing changes |
| `Summarization.NestedBracket` | chain/summarization/stuff_summarization.go:61-74 | the facade's outer start/end pair around the strategy's inner pair forms a well-nested trace |
| `Summarization.StuffSummarizationChain.constructor` | chain/summarization/stuff_summarization.go:46-49 | the chain holds the strategy and the manager, and they share that manager |
| `Summarization.StuffSummarizationChain.Run` | chain/summarization/stuff_summarization.go:56-76 | without "input": nil output, the missing-input error, no event, no model call; otherwise the trace gains outer Start, inner Start, inner End, outer End, well-nested, and the output and error are the strategy's Run result unchanged |
| `Summarization.StuffSummarizationChain.SimpleRun` | chain/summarization/stuff_summarization.go:79-94 | no validation; the same four nested events, the starts carrying output ""; the result is the strategy's SimpleRun result unchanged |
| `Summarization.NewStuffSummarizationChain` | chain/summarization/stuff_summarization.go:28-52 | prompt and key follow StuffPromptChoice; with verbose, ChainEnd gains one handler on failure and two on success (one here, one in the strategy's constructor); on failure no chain is returned; no event fires |
| `Summarization.MapReduceSummarizationChain.constructor` | chain/summarization/mapreduce_summarization.go:64-67 | the chain holds the delegate and the manager, and they share that manager |
| `Summarization.MapReduceSummarizationChain.Run` | chain/summarization/mapreduce_summarization.go:73-95 | without "input": nil output, the missing-input error, no event, the delegate not invoked; otherwise exactly one delegate call, whose model prompts are added to the model chain's call log, and the trace gains Start, then the delegate's events, then End, unconditionally; the trace is well-nested whenever the delegate's events are; the delegate's output and error are returned unchanged |
| `Summarization.MapReduceSummarizationChain.SimpleRun` | chain/summarization/mapreduce_summarization.go:98-115 | no validation; Start with output "", then the delegate's events from one delegate call, whose model prompts are logged, then End carrying the delegate's output; well-nested whenever the delegate's events are; the result is returned unchanged |
| `Summarization.NewMapReduceSummarizationChain` | chain/summarization/mapreduce_summarization.go:33-70 | with verbose, one ChainEnd handler is registered before any template is built and stays even when the constructor fails and returns no chain; on success the delegate registers a second one; the delegate gets the chosen prompts and key, the defaulted budget and the other arguments unchanged; no event fires |

## Left out

- The template engine (Go's `text/template` behind `prompt.NewPromptTemplate` and `FormatPrompt`) is not part of this model. It is the `Prompt.Engine` oracle. What formatting a nil template does is left to that oracle. This matters because a non-empty custom prompt string leaves the template nil. The oracle always returns a string or an error, so a crash in the engine (for instance a nil dereference) cannot be represented. Such a crash would also skip the ChainEnd event that every Run/SimpleRun contract here says fires.
- The model call is not part of this model. `LLMChain` is reduced to an answer oracle with a call log. The model takes it to trigger no event on the strategy's callback manager. This assumption is what makes the exact traces of the stuff strategy and the stuff facade hold. When the caller hands the model chain the same manager, the events that chain triggers would appear between the strategy's start and end events, and the model does not capture that.
- `MapReduceCombineDocument`'s algorithm (split, map, reduce, the budget loop) is not part of this model. Its `Run`/`SimpleRun` results, and the events they trigger on the shared manager, are oracles.
- `CombineDocument.MapReduceCombineDocument.constructor`: its source is not part of this model. It is taken to register the logging handler under ChainEnd when verbose, as the stuff strategy's constructor does and as every strategy is designed to do.
- The text splitter is not part of this model. It is only passed through, as a function.
- `context.Context` is dropped. So are the functional model options: `Combine` does not forward them to the model in the source, and the facades only pass them on to the strategy.
- The callback handlers' own effects (the verbose logger's output) are not modelled. Triggering records the event, and registration only appends to the handler sequence.
- In the model the callback manager is never nil. The Go test that runs `Run` with no manager returns at the input check before touching it, and the model states that no event fires on that path.
- Concurrency is not modelled. Every operation is sequential.
- The Go error message of the missing-input check is represented by the single error value `MissingInput`.
