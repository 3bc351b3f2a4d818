/** The callback manager the chains report to: a registry of handlers per event kind
    and the trace of the events triggered so far. */
module Callback {
  import opened Wrappers

  datatype Kind = ChainStart | ChainEnd

  /** The only handler the modelled code registers: the logging callback. */
  datatype Handler = VerboseCallback

  /** The payload of an event; `None` stands for a nil map. */
  datatype CallbackData = CallbackData(
    functionName: string,
    input: Option<map<string, string>>,
    output: Option<map<string, string>>)

  datatype Event = Event(kind: Kind, data: CallbackData)

  function HandlersFor(handlers: map<Kind, seq<Handler>>, kind: Kind): seq<Handler>
  {
    if kind in handlers then handlers[kind] else []
  }

  /** The registry after appending `h` to the handlers of `kind`. */
  function Registered(handlers: map<Kind, seq<Handler>>, kind: Kind, h: Handler): (r: map<Kind, seq<Handler>>)
    ensures r.Keys == handlers.Keys + {kind}
    ensures HandlersFor(r, kind) == HandlersFor(handlers, kind) + [h]
    ensures forall k :: k != kind ==> HandlersFor(r, k) == HandlersFor(handlers, k)
  {
    handlers[kind := HandlersFor(handlers, kind) + [h]]
  }

  class Manager {
    var handlers: map<Kind, seq<Handler>>
    var trace: seq<Event>

    constructor ()
      ensures handlers == map[] && trace == []
    {
      handlers := map[];
      trace := [];
    }

    method RegisterCallback(kind: Kind, h: Handler)
      modifies this
      ensures handlers == Registered(old(handlers), kind, h)
      ensures trace == old(trace)
    {
      handlers := Registered(handlers, kind, h);
    }

    /** Runs the handlers of `kind` (their effects are not modelled) and records the event. */
    method TriggerEvent(kind: Kind, data: CallbackData)
      modifies this
      ensures trace == old(trace) + [Event(kind, data)]
      ensures handlers == old(handlers)
    {
      trace := trace + [Event(kind, data)];
    }
  }

  // ----- Nesting of start/end events -----

  /** Reads a trace with a stack of open function names: a start pushes its name, an
      end must close the innermost open start of the same name. `None` when an end
      closes nothing or the wrong start. */
  function Close(t: seq<Event>, open: seq<string>): Option<seq<string>>
    decreases |t|
  {
    if t == [] then Some(open)
    else
      var name := t[0].data.functionName;
      match t[0].kind
      case ChainStart => Close(t[1..], open + [name])
      case ChainEnd =>
        if open != [] && open[|open| - 1] == name then Close(t[1..], open[..|open| - 1]) else None
  }

  /** Every end closes the innermost open start of the same function, and nothing stays open. */
  predicate WellNested(t: seq<Event>)
  {
    Close(t, []) == Some([])
  }

  /** Reading a trace on top of a deeper stack leaves that stack below untouched. */
  lemma {:induction false} CloseFrame(t: seq<Event>, below: seq<string>, open: seq<string>, rest: seq<string>)
    requires Close(t, open) == Some(rest)
    ensures Close(t, below + open) == Some(below + rest)
    decreases |t|
  {
    if t != [] {
      var name := t[0].data.functionName;
      match t[0].kind
      case ChainStart =>
        assert below + open + [name] == below + (open + [name]);
        CloseFrame(t[1..], below, open + [name], rest);
      case ChainEnd =>
        assert (below + open)[..|below + open| - 1] == below + open[..|open| - 1];
        CloseFrame(t[1..], below, open[..|open| - 1], rest);
    }
  }

  /** Reading `a + b` is reading `a` and then reading `b` from where `a` left the stack. */
  lemma {:induction false} CloseAppend(a: seq<Event>, b: seq<Event>, open: seq<string>)
    ensures Close(a + b, open) == match Close(a, open) case None => None case Some(o) => Close(b, o)
    decreases |a|
  {
    if a != [] {
      assert (a + b)[0] == a[0] && (a + b)[1..] == a[1..] + b;
      var name := a[0].data.functionName;
      match a[0].kind
      case ChainStart => CloseAppend(a[1..], b, open + [name]);
      case ChainEnd =>
        if open != [] && open[|open| - 1] == name {
          CloseAppend(a[1..], b, open[..|open| - 1]);
        }
    } else {
      assert a + b == b;
    }
  }

  /** A well-nested trace wrapped in a start and an end of the same function is well-nested. */
  lemma WrapNested(start: CallbackData, inner: seq<Event>, end: CallbackData)
    requires WellNested(inner)
    requires start.functionName == end.functionName
    ensures WellNested([Event(ChainStart, start)] + inner + [Event(ChainEnd, end)])
  {
    var name := start.functionName;
    var t := [Event(ChainStart, start)] + inner + [Event(ChainEnd, end)];
    assert t == [Event(ChainStart, start)] + (inner + [Event(ChainEnd, end)]);
    CloseAppend([Event(ChainStart, start)], inner + [Event(ChainEnd, end)], []);
    assert Close([Event(ChainStart, start)], []) == Some([name]);
    CloseAppend(inner, [Event(ChainEnd, end)], [name]);
    CloseFrame(inner, [name], [], []);
    assert [name] + [] == [name];
  }
}
