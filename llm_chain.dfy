/** The model-calling chain used by the combine strategies. Its source is not part of
    this model: it answers each prompt through an oracle and records the prompts it
    was given, so that contracts can say when the model is (not) called. */
module LlmChain {
  import opened Wrappers

  class LlmChain {
    /** What the model answers to a prompt (output and error, as a Go pair). */
    const respond: string -> Answer
    /** The prompts passed to SimpleRun, oldest first. */
    var calls: seq<string>

    constructor (respond: string -> Answer)
      ensures this.respond == respond && calls == []
    {
      this.respond := respond;
      calls := [];
    }

    method SimpleRun(prompt: string) returns (output: string, err: Option<Error>)
      modifies this
      ensures output == respond(prompt).output && err == respond(prompt).err
      ensures calls == old(calls) + [prompt]
    {
      output, err := respond(prompt).output, respond(prompt).err;
      calls := calls + [prompt];
    }
  }
}
