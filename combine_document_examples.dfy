/** The concrete cases of the combine-document tests, checked against the model with
    an echoing template engine and an echoing model. */
module CombineDocumentExamples {
  import opened Wrappers
  import opened Callback
  import opened Prompt
  import opened LlmChain
  import opened CombineDocument
  import opened Summarization

  const EmptyPrompt: Template := Template("empty", "")
  const EchoPrompt: Template := Template("empty", "{{.echo}}")

  /** Renders the two test templates: the empty body gives "", "{{.echo}}" gives the
      value under "echo". */
  function EchoExecute(t: Option<Template>, data: map<string, string>): Result<string>
  {
    if t == Some(EmptyPrompt) then Ok("")
    else if t == Some(EchoPrompt) && "echo" in data then Ok(data["echo"])
    else Err(TemplateError("not a test template"))
  }

  function NoSyntaxError(body: string): Option<Error>
  {
    None
  }

  /** The mocked model returns its prompt. */
  function EchoModel(prompt: string): Answer
  {
    Answer(prompt, None)
  }

  method CombineCases()
  {
    var manager := new Manager();
    var llm := new LlmChain(EchoModel);
    var engine := Engine(NoSyntaxError, EchoExecute);

    var empty := new StuffCombineDocument(manager, Some(EmptyPrompt), "", llm, engine, false);
    var output, err := empty.Combine([]);
    assert output == "" && err == None;

    var echo := new StuffCombineDocument(manager, Some(EchoPrompt), "echo", llm, engine, false);
    assert Concat(["crowded", "jakarta"]) == "crowded\njakarta\n";
    output, err := echo.Combine(["crowded", "jakarta"]);
    assert output == "crowded\njakarta\n" && err == None;
    assert llm.calls == ["", "crowded\njakarta\n"];
  }

  method RunCases()
  {
    var manager := new Manager();
    var llm := new LlmChain(EchoModel);
    var engine := Engine(NoSyntaxError, EchoExecute);
    var echo := new StuffCombineDocument(manager, Some(EchoPrompt), "echo", llm, engine, false);

    var output, err := echo.Run(map[]);
    assert output == None && err == Some(MissingInput);
    assert manager.trace == [] && llm.calls == [];

    var input := map["input" := "crowded,jakarta"];
    assert Concat(["crowded,jakarta"]) == "crowded,jakarta\n";
    output, err := echo.Run(input);
    assert output == Some(map["output" := "crowded,jakarta\n"]) && err == None;
    assert |manager.trace| == 2;

    // A second identical call gives the identical output: nothing accumulates.
    var again, err2 := echo.Run(input);
    assert again == output && err2 == None;
    assert |manager.trace| == 4;
  }

  method SimpleRunCases()
  {
    var manager := new Manager();
    var llm := new LlmChain(EchoModel);
    var engine := Engine(NoSyntaxError, EchoExecute);

    var empty := new StuffCombineDocument(manager, Some(EmptyPrompt), "", llm, engine, false);
    var output, err := empty.SimpleRun("");
    assert output == "" && err == None;

    var echo := new StuffCombineDocument(manager, Some(EchoPrompt), "echo", llm, engine, false);
    assert Concat(["crowded,jakarta"]) == "crowded,jakarta\n";
    output, err := echo.SimpleRun("crowded,jakarta");
    assert output == "crowded,jakarta\n" && err == None;
    assert manager.trace[2] == Event(ChainStart, SimpleRunData("StuffCombineDocument.SimpleRun", "crowded,jakarta", ""));
  }

  method SummarizationCases()
  {
    var manager := new Manager();
    var llm := new LlmChain(EchoModel);
    var engine := Engine(NoSyntaxError, EchoExecute);

    // The default prompt replaces the caller's key by "text"; verbose registers twice.
    var s, err := NewStuffSummarizationChain(llm, manager, engine, "", "echo", true);
    assert err == None && s != null;
    assert s.stuffCombineDocument.promptTemplateKey == "text";
    VerboseRegisteredHandlers(map[], true, 2);
    assert HandlersFor(manager.handlers, ChainEnd) == [VerboseCallback, VerboseCallback];

    // A custom prompt string is not parsed: nil template, caller's key kept.
    var custom, err2 := NewStuffSummarizationChain(llm, manager, engine, "{{.echo}}", "echo", false);
    assert err2 == None && custom != null;
    assert custom.stuffCombineDocument.prompt == None && custom.stuffCombineDocument.promptTemplateKey == "echo";
    assert |manager.trace| == 0;
  }
}
