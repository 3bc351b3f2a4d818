/** Prompt templates. The template engine (Go's text/template behind the prompt
    package) is not part of this model: it is an `Engine` of two oracle functions. */
module Prompt {
  import opened Wrappers

  /** A parsed template: its name and its body. */
  datatype Template = Template(name: string, body: string)

  /** `parse` reports a syntax error in a template body; `execute` renders a template
      (possibly nil) against a key/value map. */
  datatype Engine = Engine(
    parse: string -> Option<Error>,
    execute: (Option<Template>, map<string, string>) -> Result<string>)

  /** prompt.NewPromptTemplate: a template of the given name and body, or the parse error. */
  function NewPromptTemplate(engine: Engine, name: string, body: string): (r: Result<Template>)
    ensures r.Ok? <==> engine.parse(body).None?
    ensures r.Ok? ==> r.value == Template(name, body)
    ensures r.Err? ==> Some(r.error) == engine.parse(body)
  {
    match engine.parse(body)
    case None => Ok(Template(name, body))
    case Some(e) => Err(e)
  }
}
