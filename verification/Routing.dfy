/**
 Event routing: evaluate_filters of src/chattice/filters/base.py, invoke_with_middleware of
 src/chattice/dispatcher/middleware.py, and the nested search of Dispatcher._route_event in
 src/chattice/dispatcher/dispatcher.py, which is a flat first-match search.

 Filters, middleware and handlers are any functions of the event and the context mapping; the
 latter two may change the mapping they are given.
 */
module Routing {
  import opened Options

  type Value = nat

  type Context = map<string, Value>

  /** Interrupt stands for CancelledError and its like, which are no `Exception`s. */
  datatype Exception = Error(id: nat) | Interrupt(id: nat)

  const FILTER_ERROR: Exception := Error(0)
  const CONTEXT_CONFLICT: Exception := Error(1)
  const UNHANDLED_INTERACTION: Exception := Error(2)

  // ------------------------------------------------------------------ events

  datatype DialogType = Request | Submit | Cancel

  datatype CommandKind = MessageAction | SlashCommand | QuickCommand | UnknownKind

  datatype Event =
    | Message
    | Action(dialog: Option<DialogType>)
    | Command(kind: CommandKind)
    | AddedToSpace
    | RemovedFromSpace
    | WidgetUpdated
    | AppHome
    | FormSubmit
    | Unknown
    | ErrorEvent(exception: Exception)
    | Plain

  function SpecificObserverNames(e: Event): seq<string> {
    match e
    case Message => ["message"]
    case Action(Some(Submit)) => ["dialog_submit"]
    case Action(Some(Cancel)) => ["dialog_cancel"]
    case Action(_) => ["action"]
    case Command(MessageAction) => ["message_action", "command"]
    case Command(SlashCommand) => ["slash_command", "command"]
    case Command(QuickCommand) => ["quick_command", "command"]
    case Command(_) => []
    case AddedToSpace => ["added_to_space"]
    case RemovedFromSpace => ["removed_from_space"]
    case WidgetUpdated => ["widget_updated"]
    case AppHome => ["app_home"]
    case FormSubmit => ["form_submit"]
    case Unknown => ["unknown_event"]
    case ErrorEvent(_) => ["error"]
    case Plain => []
  }

  /** The observers an event is offered to, in order. */
  function ObserverNames(e: Event): seq<string> {
    SpecificObserverNames(e) + if e.ErrorEvent? then [] else ["event"]
  }

  /** The events an observer is for. */
  predicate Receives(name: string, e: Event) {
    match name
    case "message" => e.Message?
    case "action" => e.Action? && e.dialog != Some(Submit) && e.dialog != Some(Cancel)
    case "dialog_submit" => e == Action(Some(Submit))
    case "dialog_cancel" => e == Action(Some(Cancel))
    case "message_action" => e == Command(MessageAction)
    case "slash_command" => e == Command(SlashCommand)
    case "quick_command" => e == Command(QuickCommand)
    case "command" => e.Command? && e.kind != UnknownKind
    case "added_to_space" => e.AddedToSpace?
    case "removed_from_space" => e.RemovedFromSpace?
    case "widget_updated" => e.WidgetUpdated?
    case "app_home" => e.AppHome?
    case "form_submit" => e.FormSubmit?
    case "unknown_event" => e.Unknown?
    case "error" => e.ErrorEvent?
    case "event" => !e.ErrorEvent?
    case _ => false
  }

  /** The catch-all comes last, and the observer of all commands after that of one kind. */
  function Generality(name: string): nat {
    if name == "event" then 2 else if name == "command" then 1 else 0
  }

  /** Every observer is offered exactly the events it is for, the more special observer first. */
  lemma ObserversGetTheirEvents(e: Event, name: string)
    ensures name in ObserverNames(e) <==> Receives(name, e)
    ensures
      var names := ObserverNames(e);
      forall i, j | 0 <= i < j < |names| :: Generality(names[i]) < Generality(names[j])
  {
    SpecialObserversFirst(e);
    assert name in ObserverNames(e) <==>
      name in SpecificObserverNames(e) || (name == "event" && !e.ErrorEvent?);
  }

  lemma SpecialObserversFirst(e: Event)
    ensures
      var names := ObserverNames(e);
      forall i, j | 0 <= i < j < |names| :: Generality(names[i]) < Generality(names[j])
  {
  }

  // ------------------------------------------------------------------ filters

  /** One pair of a filter's mapping; a key that is no string has no name. */
  datatype Item = Item(key: Option<string>, value: Value)

  /** What a filter does: a bool, a mapping, something else, or an exception. */
  datatype Answer =
    | Says(b: bool)
    | Adds(items: seq<Item>)
    | Nonsense
    | Skips
    | Stops
    | Throws(e: Exception)

  type Filter = (Event, Context) -> Answer

  datatype Verdict = Passed | Refused | Skipped | Stopped | Failed(e: Exception)

  /** Merging one mapping: the verdict and the context as it is left. */
  function Merged(items: seq<Item>, data: Context): (Verdict, Context) {
    if items == [] then (Passed, data)
    else if items[0].key == None then (Failed(FILTER_ERROR), data)
    else if items[0].key.value in data then (Failed(CONTEXT_CONFLICT), data)
    else Merged(items[1..], data[items[0].key.value := items[0].value])
  }

  /** Evaluating filters in order, until the first that does not pass. */
  function Evaluated(filters: seq<Filter>, e: Event, data: Context): (Verdict, Context) {
    if filters == [] then (Passed, data) else
      match filters[0](e, data)
      case Says(b) => if b then Evaluated(filters[1..], e, data) else (Refused, data)
      case Nonsense => (Failed(FILTER_ERROR), data)
      case Skips => (Skipped, data)
      case Stops => (Stopped, data)
      case Throws(x) => (Failed(x), data)
      case Adds(items) =>
        var m := Merged(items, data);
        if m.0 == Passed then Evaluated(filters[1..], e, m.1) else m
  }

  /** The mapping the filters write into. */
  class ContextData {
    var items: Context

    constructor (items: Context)
      ensures this.items == items
    {
      this.items := items;
    }
  }

  method EvaluateFilters(filters: seq<Filter>, e: Event, data: ContextData) returns (v: Verdict)
    modifies data
    ensures (v, data.items) == Evaluated(filters, e, old(data.items))
  {
    for i := 0 to |filters|
      invariant Evaluated(filters, e, old(data.items)) == Evaluated(filters[i..], e, data.items)
    {
      match filters[i](e, data.items) {
        case Says(b) =>
          if !b { return Refused; }
        case Nonsense => return Failed(FILTER_ERROR);
        case Skips => return Skipped;
        case Stops => return Stopped;
        case Throws(x) => return Failed(x);
        case Adds(items) =>
          ghost var before := data.items;
          for j := 0 to |items|
            invariant Evaluated(filters, e, old(data.items)) == Evaluated(filters[i..], e, before)
            invariant Merged(items, before) == Merged(items[j..], data.items)
          {
            if items[j].key == None { return Failed(FILTER_ERROR); }
            if items[j].key.value in data.items { return Failed(CONTEXT_CONFLICT); }
            data.items := data.items[items[j].key.value := items[j].value];
          }
      }
    }
    return Passed;
  }

  /** The mapping may be merged: string keys, all new, each once. */
  predicate Mergeable(items: seq<Item>, data: Context) {
    && (forall i | 0 <= i < |items| :: items[i].key.Some? && items[i].key.value !in data)
    && (forall i, j | 0 <= i < j < |items| :: items[i].key != items[j].key)
  }

  /** big is small and the items, and nothing else. */
  predicate Joins(big: Context, small: Context, items: seq<Item>) {
    && (forall k | k in small :: k in big && big[k] == small[k])
    && (forall i | 0 <= i < |items| ::
          items[i].key.Some? && items[i].key.value in big && big[items[i].key.value] == items[i].value)
    && (forall k | k in big :: k in small || Some(k) in Keys(items))
  }

  function Keys(items: seq<Item>): set<Option<string>> {
    set i | 0 <= i < |items| :: items[i].key
  }

  /** Merging succeeds exactly on mergeable mappings, and then joins them on. */
  lemma {:induction false} MergesExactly(items: seq<Item>, data: Context)
    ensures Merged(items, data).0 == Passed <==> Mergeable(items, data)
    ensures Merged(items, data).0 == Passed ==> Joins(Merged(items, data).1, data, items)
    decreases |items|
  {
    if items != [] && items[0].key.Some? && items[0].key.value !in data {
      var more := data[items[0].key.value := items[0].value];
      MergesExactly(items[1..], more);
      MergeableSplit(items, data, more);
      if Merged(items, data).0 == Passed {
        JoinsSplit(items, data, more, Merged(items, data).1);
      }
    }
  }

  lemma MergeableSplit(items: seq<Item>, data: Context, more: Context)
    requires items != [] && items[0].key.Some? && items[0].key.value !in data
    requires more == data[items[0].key.value := items[0].value]
    ensures Mergeable(items, data) <==> Mergeable(items[1..], more)
  {
    assert forall i | 0 < i < |items| :: items[i] == items[1..][i - 1];
    if Mergeable(items[1..], more) {
      forall i | 0 < i < |items|
        ensures items[i].key.Some? && items[i].key.value !in data && items[i].key != items[0].key
      {
        assert items[1..][i - 1].key.value !in more;
      }
    }
  }

  lemma JoinsSplit(items: seq<Item>, data: Context, more: Context, big: Context)
    requires items != [] && items[0].key.Some? && items[0].key.value !in data
    requires more == data[items[0].key.value := items[0].value] && Joins(big, more, items[1..])
    ensures Joins(big, data, items)
  {
    assert forall i | 0 < i < |items| :: items[i] == items[1..][i - 1];
    forall k | k in big ensures k in data || Some(k) in Keys(items) {
      if k !in more {
        var i :| 0 <= i < |items[1..]| && items[1..][i].key == Some(k);
        assert items[i + 1].key == Some(k);
      } else if k !in data {
        assert items[0].key == Some(k);
      }
    }
  }

  /** The filter lets the event on, from one context to the next. */
  predicate Accepts(f: Filter, e: Event, before: Context, after: Context) {
    match f(e, before)
    case Says(b) => b && after == before
    case Adds(items) => Mergeable(items, before) && Joins(after, before, items)
    case _ => false
  }

  /** A context for every point between the filters. */
  predicate Accepted(filters: seq<Filter>, e: Event, contexts: seq<Context>) {
    |contexts| == |filters| + 1 && forall i | 0 <= i < |filters| :: Accepts(filters[i], e, contexts[i], contexts[i + 1])
  }

  /** There is at most one way to join a mergeable mapping on. */
  lemma JoinsOnce(a: Context, b: Context, small: Context, items: seq<Item>)
    requires Joins(a, small, items) && Joins(b, small, items)
    ensures a == b
  {
    forall k | k in a || k in b ensures k in a && k in b && a[k] == b[k] {
      if k !in small {
        var i :| 0 <= i < |items| && items[i].key == Some(k);
        assert items[i].key.value in a && items[i].key.value in b;
      }
    }
  }

  lemma {:induction false} PassingIsAcceptance(filters: seq<Filter>, e: Event, data: Context)
    returns (contexts: seq<Context>)
    requires Evaluated(filters, e, data).0 == Passed
    ensures Accepted(filters, e, contexts) && contexts[0] == data
      && contexts[|filters|] == Evaluated(filters, e, data).1
    decreases |filters|
  {
    contexts := [data];
    if filters != [] {
      var next := data;
      if filters[0](e, data).Adds? {
        MergesExactly(filters[0](e, data).items, data);
        next := Merged(filters[0](e, data).items, data).1;
      }
      var rest := PassingIsAcceptance(filters[1..], e, next);
      contexts := [data] + rest;
      forall i | 0 <= i < |filters| ensures Accepts(filters[i], e, contexts[i], contexts[i + 1]) {
        if i > 0 {
          assert filters[i] == filters[1..][i - 1] && contexts[i] == rest[i - 1] && contexts[i + 1] == rest[i];
        }
      }
    }
  }

  lemma {:induction false} AcceptancePasses(filters: seq<Filter>, e: Event, contexts: seq<Context>)
    requires Accepted(filters, e, contexts)
    ensures Evaluated(filters, e, contexts[0]) == (Passed, contexts[|filters|])
    decreases |filters|
  {
    if filters != [] {
      assert Accepts(filters[0], e, contexts[0], contexts[1]);
      if filters[0](e, contexts[0]).Adds? {
        var items := filters[0](e, contexts[0]).items;
        MergesExactly(items, contexts[0]);
        JoinsOnce(Merged(items, contexts[0]).1, contexts[1], contexts[0], items);
      }
      forall i | 0 <= i < |filters[1..]| ensures Accepts(filters[1..][i], e, contexts[1..][i], contexts[1..][i + 1]) {
        assert Accepts(filters[i + 1], e, contexts[i + 1], contexts[i + 2]);
      }
      AcceptancePasses(filters[1..], e, contexts[1..]);
    }
  }

  /** The filters let an event pass exactly when each in turn accepts it, in the context the
      ones before it have built; the handler then gets the last of these contexts. */
  lemma FiltersPassExactlyWhenAllAccept(filters: seq<Filter>, e: Event, data: Context, final: Context)
    ensures Evaluated(filters, e, data) == (Passed, final) <==>
      exists contexts :: Accepted(filters, e, contexts) && contexts[0] == data && contexts[|filters|] == final
  {
    if Evaluated(filters, e, data) == (Passed, final) {
      var contexts := PassingIsAcceptance(filters, e, data);
    }
    if exists contexts :: Accepted(filters, e, contexts) && contexts[0] == data && contexts[|filters|] == final {
      var contexts :| Accepted(filters, e, contexts) && contexts[0] == data && contexts[|filters|] == final;
      AcceptancePasses(filters, e, contexts);
    }
  }

  /** What a filter that does not let the event on makes of it, and what it leaves in the context:
      a mapping that cannot be merged leaves the items before the one it fails at. */
  predicate Rejects(f: Filter, e: Event, before: Context, v: Verdict, after: Context) {
    match f(e, before)
    case Says(b) => !b && v == Refused && after == before
    case Skips => v == Skipped && after == before
    case Stops => v == Stopped && after == before
    case Throws(x) => v == Failed(x) && after == before
    case Nonsense => v == Failed(FILTER_ERROR) && after == before
    case Adds(items) => exists j | 0 <= j < |items| :: FailsAt(items, j, before, v, after)
  }

  predicate FailsAt(items: seq<Item>, j: nat, before: Context, v: Verdict, after: Context)
    requires j < |items|
  {
    && Mergeable(items[..j], before) && Joins(after, before, items[..j]) && !Mergeable(items[..j + 1], before)
    && v == Failed(if items[j].key == None then FILTER_ERROR else CONTEXT_CONFLICT)
  }

  lemma MergeableMore(items: seq<Item>, data: Context, more: Context, j: nat)
    requires items != [] && j < |items| && items[0].key.Some? && items[0].key.value !in data
    requires more == data[items[0].key.value := items[0].value]
    ensures Mergeable(items[..j + 1], data) <==> Mergeable(items[1..][..j], more)
    ensures forall big | Joins(big, more, items[1..][..j]) :: Joins(big, data, items[..j + 1])
  {
    assert items[..j + 1][1..] == items[1..][..j];
    MergeableSplit(items[..j + 1], data, more);
    forall big | Joins(big, more, items[1..][..j]) ensures Joins(big, data, items[..j + 1]) {
      JoinsSplit(items[..j + 1], data, more, big);
    }
  }

  /** A merge that fails does so at the first item it cannot add. */
  lemma {:induction false} MergeFailsAt(items: seq<Item>, data: Context) returns (j: nat)
    requires Merged(items, data).0 != Passed
    ensures j < |items| && FailsAt(items, j, data, Merged(items, data).0, Merged(items, data).1)
    decreases |items|
  {
    if items[0].key == None || items[0].key.value in data {
      j := 0;
    } else {
      var more := data[items[0].key.value := items[0].value];
      var i := MergeFailsAt(items[1..], more);
      MergeableMore(items, data, more, i);
      MergeableMore(items, data, more, i + 1);
      j := i + 1;
    }
  }

  /** A verdict other than a pass is that of the first filter that does not let the event on, after
      all filters before it have, each in the context the ones before it have built. */
  lemma {:induction false} VerdictOfTheFirstRefusal(filters: seq<Filter>, e: Event, data: Context)
    returns (contexts: seq<Context>)
    requires Evaluated(filters, e, data).0 != Passed
    ensures 0 < |contexts| <= |filters| && contexts[0] == data
    ensures Accepted(filters[..|contexts| - 1], e, contexts)
    ensures
      var k := |contexts| - 1;
      Rejects(filters[k], e, contexts[k], Evaluated(filters, e, data).0, Evaluated(filters, e, data).1)
    decreases |filters|
  {
    var first := Evaluated([filters[0]], e, data);
    FirstFilterDecides(filters, e, data);
    if first.0 == Passed {
      var rest := VerdictOfTheFirstRefusal(filters[1..], e, first.1);
      contexts := [data] + rest;
      AcceptedBefore(filters, e, data, rest);
    } else {
      contexts := [data];
    }
  }

  /** One filter accepts, or its refusal is the verdict. */
  lemma FirstFilterDecides(filters: seq<Filter>, e: Event, data: Context)
    requires filters != []
    ensures
      var first := Evaluated([filters[0]], e, data);
      if first.0 == Passed then
        Accepts(filters[0], e, data, first.1) && Evaluated(filters, e, data) == Evaluated(filters[1..], e, first.1)
      else
        Rejects(filters[0], e, data, first.0, first.1) && Evaluated(filters, e, data) == first
  {
    assert [filters[0]][1..] == [];
    var answer := filters[0](e, data);
    if answer.Adds? {
      MergesExactly(answer.items, data);
      if Merged(answer.items, data).0 != Passed { var j := MergeFailsAt(answer.items, data); }
    }
  }

  lemma AcceptedBefore(filters: seq<Filter>, e: Event, data: Context, rest: seq<Context>)
    requires 0 < |rest| < |filters| && Accepts(filters[0], e, data, rest[0])
    requires Accepted(filters[1..][..|rest| - 1], e, rest)
    ensures Accepted(filters[..|rest|], e, [data] + rest)
  {
    var contexts := [data] + rest;
    forall i | 0 <= i < |rest| ensures Accepts(filters[i], e, contexts[i], contexts[i + 1]) {
      if i > 0 {
        assert filters[1..][..|rest| - 1][i - 1] == filters[i];
        assert Accepts(filters[1..][..|rest| - 1][i - 1], e, rest[i - 1], rest[i]);
      }
    }
  }

  predicate Extends(big: Context, small: Context) {
    forall k | k in small :: k in big && big[k] == small[k]
  }

  lemma {:induction false} MergingExtends(items: seq<Item>, data: Context)
    ensures Extends(Merged(items, data).1, data)
    decreases |items|
  {
    if items != [] && items[0].key.Some? && items[0].key.value !in data {
      MergingExtends(items[1..], data[items[0].key.value := items[0].value]);
    }
  }

  /** Filters never redefine or drop a context key, whatever their verdict; and the evaluation
      of a joined list is the evaluation of the second part in the context of the first. */
  lemma {:induction false} FiltersOnlyAdd(filters: seq<Filter>, e: Event, data: Context)
    ensures Extends(Evaluated(filters, e, data).1, data)
    decreases |filters|
  {
    if filters != [] {
      match filters[0](e, data) {
        case Says(b) => if b { FiltersOnlyAdd(filters[1..], e, data); }
        case Adds(items) =>
          var m := Merged(items, data);
          MergingExtends(items, data);
          if m.0 == Passed { FiltersOnlyAdd(filters[1..], e, m.1); }
        case _ =>
      }
    }
  }

  lemma {:induction false} FiltersCompose(xs: seq<Filter>, ys: seq<Filter>, e: Event, data: Context)
    ensures
      var first := Evaluated(xs, e, data);
      Evaluated(xs + ys, e, data) == if first.0 == Passed then Evaluated(ys, e, first.1) else first
    decreases |xs|
  {
    if xs == [] {
      assert xs + ys == ys;
    } else {
      assert (xs + ys)[1..] == xs[1..] + ys;
      match xs[0](e, data) {
        case Says(b) => if b { FiltersCompose(xs[1..], ys, e, data); }
        case Adds(items) =>
          var m := Merged(items, data);
          if m.0 == Passed { FiltersCompose(xs[1..], ys, e, m.1); }
        case _ =>
      }
    }
  }

  // ------------------------------------------------------------------ middleware

  datatype HandlerResult = Result(value: Value) | Skip | Stop | Throw(e: Exception)

  /** How a call ends, and what it leaves in the context mapping it was given. */
  datatype Ran = Ran(result: HandlerResult, data: Context)

  type Next = (Event, Context) -> Ran

  type Middleware = (Next, Event, Context) -> Ran

  function Wrapped(m: Middleware, next: Next): Next {
    (e: Event, data: Context) => m(next, e, data)
  }

  /** The handler inside its middleware, the first middleware outermost. */
  function Compose(ms: seq<Middleware>, handler: Next): Next {
    if ms == [] then handler else Wrapped(ms[0], Compose(ms[1..], handler))
  }

  method InvokeWithMiddleware(handler: Next, ms: seq<Middleware>, e: Event, data: ContextData)
    returns (r: HandlerResult)
    modifies data
    ensures Ran(r, data.items) == Compose(ms, handler)(e, old(data.items))
  {
    var current := handler;
    for i := |ms| downto 0
      invariant current == Compose(ms[i..], handler)
    {
      current := Wrapped(ms[i], current);
    }
    var ran := current(e, data.items);
    data.items := ran.data;
    return ran.result;
  }

  /** The first middleware is called with the rest of the nest as its next, and has the last word:
      one that never calls next keeps the handler from running. */
  lemma FirstMiddlewareDecides(ms: seq<Middleware>, handler: Next, e: Event, data: Context)
    ensures ms == [] ==> Compose(ms, handler)(e, data) == handler(e, data)
    ensures ms != [] ==> Compose(ms, handler)(e, data) == ms[0](Compose(ms[1..], handler), e, data)
  {
  }

  /** Inherited middleware and a router's own compose as if they were one list. */
  lemma {:induction false} ComposeConcat(xs: seq<Middleware>, ys: seq<Middleware>, handler: Next)
    ensures Compose(xs + ys, handler) == Compose(xs, Compose(ys, handler))
    decreases |xs|
  {
    if xs == [] {
      assert xs + ys == ys;
    } else {
      assert (xs + ys)[1..] == xs[1..] + ys;
      ComposeConcat(xs[1..], ys, handler);
    }
  }

  // ------------------------------------------------------------------ the flat search

  datatype Handler = Handler(filters: seq<Filter>, callback: Next)

  datatype Observer = Observer(filters: seq<Filter>, handlers: seq<Handler>)

  /** One router of the walk: its observers by name and the middleware of its root path. */
  datatype Visit = Visit(observers: map<string, Observer>, middleware: seq<Middleware>)

  datatype Outcome = Unhandled | Halted | Handled(value: Value) | Raised(e: Exception)

  function ObserverOf(v: Visit, name: string): Observer {
    if name in v.observers then v.observers[name] else Observer([], [])
  }

  /** A candidate: the observer it is offered through, its router's place in the walk, and its
      place among the observer's handlers. */
  datatype Candidate = Candidate(name: string, router: nat, handler: nat)

  function HandlersFrom(walk: seq<Visit>, name: string, router: nat, handler: nat): seq<Candidate>
    requires router < |walk| && handler <= |ObserverOf(walk[router], name).handlers|
    decreases |ObserverOf(walk[router], name).handlers| - handler
  {
    if handler == |ObserverOf(walk[router], name).handlers| then []
    else [Candidate(name, router, handler)] + HandlersFrom(walk, name, router, handler + 1)
  }

  function RoutersFrom(walk: seq<Visit>, name: string, router: nat): seq<Candidate>
    requires router <= |walk|
    decreases |walk| - router
  {
    if router == |walk| then [] else HandlersFrom(walk, name, router, 0) + RoutersFrom(walk, name, router + 1)
  }

  /** Every candidate, in the order they are offered the event. */
  function Candidates(walk: seq<Visit>, names: seq<string>): seq<Candidate> {
    if names == [] then [] else RoutersFrom(walk, names[0], 0) + Candidates(walk, names[1..])
  }

  predicate IsCandidate(walk: seq<Visit>, c: Candidate) {
    c.router < |walk| && c.handler < |ObserverOf(walk[c.router], c.name).handlers|
  }

  /** The handler's verdict: the observer's common filters, then its own; and the context left. */
  function Admission(walk: seq<Visit>, e: Event, data: Context, c: Candidate): (Verdict, Context)
    requires IsCandidate(walk, c)
  {
    var observer := ObserverOf(walk[c.router], c.name);
    var gate := Evaluated(observer.filters, e, data);
    if gate.0 == Passed then Evaluated(observer.handlers[c.handler].filters, e, gate.1) else gate
  }

  function OfVerdict(v: Verdict): Option<Outcome> {
    match v
    case Stopped => Some(Halted)
    case Failed(x) => Some(Raised(x))
    case _ => None
  }

  function OfResult(r: HandlerResult): Option<Outcome> {
    match r
    case Result(v) => Some(Handled(v))
    case Skip => None
    case Stop => Some(Halted)
    case Throw(x) => Some(Raised(x))
  }

  /** What the candidate makes of the event, on its own: None lets the search go on. */
  function Decision(walk: seq<Visit>, e: Event, data: Context, c: Candidate): (d: Option<Outcome>)
    ensures d != Some(Unhandled)
  {
    if !IsCandidate(walk, c) then None else
      var admission := Admission(walk, e, data, c);
      if admission.0 != Passed then OfVerdict(admission.0)
      else
        var h := ObserverOf(walk[c.router], c.name).handlers[c.handler];
        OfResult(Compose(walk[c.router].middleware, h.callback)(e, admission.1).result)
  }

  /** The candidate's handler is called, through its middleware. */
  predicate Invoked(walk: seq<Visit>, e: Event, data: Context, c: Candidate) {
    IsCandidate(walk, c) && Admission(walk, e, data, c).0 == Passed
  }

  /** The flat search: the first candidate that decides. */
  function Search(walk: seq<Visit>, e: Event, data: Context, cs: seq<Candidate>): Outcome
  {
    if cs == [] then Unhandled else
      match Decision(walk, e, data, cs[0])
      case Some(o) => o
      case None => Search(walk, e, data, cs[1..])
  }

  /** The handlers called on the way, in order. */
  function Calls(walk: seq<Visit>, e: Event, data: Context, cs: seq<Candidate>): seq<Candidate>
  {
    if cs == [] then [] else
      if Decision(walk, e, data, cs[0]).Some? then CallOf(walk, e, data, cs[0])
      else CallOf(walk, e, data, cs[0]) + Calls(walk, e, data, cs[1..])
  }

  /** All filters a candidate's handler sits behind: the observer's, then its own. */
  function FiltersOf(walk: seq<Visit>, c: Candidate): seq<Filter>
    requires IsCandidate(walk, c)
  {
    var observer := ObserverOf(walk[c.router], c.name);
    observer.filters + observer.handlers[c.handler].filters
  }

  /** A candidate's handler is called exactly if all filters before it pass, inside its middleware
      and in the context they leave, and then decides by what comes back: a value handles the event,
      a stop halts it, an exception is raised, and a skip lets it on. A candidate whose filters do not
      pass decides only if one of them stops the event or fails. */
  lemma WhatCandidatesDecide(walk: seq<Visit>, e: Event, data: Context, c: Candidate)
    requires IsCandidate(walk, c)
    ensures
      var (v, left) := Evaluated(FiltersOf(walk, c), e, data);
      var callback := ObserverOf(walk[c.router], c.name).handlers[c.handler].callback;
      && (Invoked(walk, e, data, c) <==> v == Passed)
      && Decision(walk, e, data, c) ==
           match v
           case Passed => (
             match Compose(walk[c.router].middleware, callback)(e, left).result
             case Result(value) => Some(Handled(value))
             case Stop => Some(Halted)
             case Throw(x) => Some(Outcome.Raised(x))
             case Skip => None)
           case Stopped => Some(Halted)
           case Failed(x) => Some(Outcome.Raised(x))
           case Refused => None
           case Skipped => None
  {
    var observer := ObserverOf(walk[c.router], c.name);
    FiltersCompose(observer.filters, observer.handlers[c.handler].filters, e, data);
  }

  // ------------------------------------------------------------------ facts about the search

  lemma {:induction false} SearchConcat(
    walk: seq<Visit>, e: Event, data: Context, xs: seq<Candidate>, ys: seq<Candidate>)
    ensures Search(walk, e, data, xs + ys) ==
      if Search(walk, e, data, xs) == Unhandled then Search(walk, e, data, ys) else Search(walk, e, data, xs)
    decreases |xs|
  {
    if xs == [] {
      assert xs + ys == ys;
    } else {
      assert (xs + ys)[1..] == xs[1..] + ys;
      SearchConcat(walk, e, data, xs[1..], ys);
    }
  }

  /** The call of one candidate's handler, if it comes to that. */
  function CallOf(walk: seq<Visit>, e: Event, data: Context, c: Candidate): seq<Candidate> {
    if Invoked(walk, e, data, c) then [c] else []
  }

  lemma Associative<T>(a: seq<T>, b: seq<T>, c: seq<T>)
    ensures (a + b) + c == a + (b + c)
  {
  }

  lemma {:induction false} CallsConcat(
    walk: seq<Visit>, e: Event, data: Context, xs: seq<Candidate>, ys: seq<Candidate>)
    ensures Calls(walk, e, data, xs + ys) ==
      if Search(walk, e, data, xs) == Unhandled then Calls(walk, e, data, xs) + Calls(walk, e, data, ys)
      else Calls(walk, e, data, xs)
    decreases |xs|
  {
    if xs == [] {
      assert xs + ys == ys;
    } else {
      CallsConcat(walk, e, data, xs[1..], ys);
      CallsConcatStep(walk, e, data, xs, ys);
    }
  }

  lemma CallsConcatStep(walk: seq<Visit>, e: Event, data: Context, xs: seq<Candidate>, ys: seq<Candidate>)
    requires xs != []
    requires Calls(walk, e, data, xs[1..] + ys) ==
      if Search(walk, e, data, xs[1..]) == Unhandled then Calls(walk, e, data, xs[1..]) + Calls(walk, e, data, ys)
      else Calls(walk, e, data, xs[1..])
    ensures Calls(walk, e, data, xs + ys) ==
      if Search(walk, e, data, xs) == Unhandled then Calls(walk, e, data, xs) + Calls(walk, e, data, ys)
      else Calls(walk, e, data, xs)
  {
    assert (xs + ys)[1..] == xs[1..] + ys && (xs + ys)[0] == xs[0];
    CallsStep(walk, e, data, xs);
    CallsStep(walk, e, data, xs + ys);
    Associative(CallOf(walk, e, data, xs[0]), Calls(walk, e, data, xs[1..]), Calls(walk, e, data, ys));
  }

  lemma CallsStep(walk: seq<Visit>, e: Event, data: Context, cs: seq<Candidate>)
    requires cs != []
    ensures
      match Decision(walk, e, data, cs[0])
      case Some(o) =>
        o != Unhandled && Search(walk, e, data, cs) == o && Calls(walk, e, data, cs) == CallOf(walk, e, data, cs[0])
      case None =>
        && Search(walk, e, data, cs) == Search(walk, e, data, cs[1..])
        && Calls(walk, e, data, cs) == CallOf(walk, e, data, cs[0]) + Calls(walk, e, data, cs[1..])
  {
  }

  lemma {:induction false} HandlersAreCandidates(walk: seq<Visit>, name: string, router: nat, handler: nat)
    requires router < |walk| && handler <= |ObserverOf(walk[router], name).handlers|
    ensures forall i | 0 <= i < |HandlersFrom(walk, name, router, handler)| ::
      HandlersFrom(walk, name, router, handler)[i] == Candidate(name, router, handler + i)
    ensures |HandlersFrom(walk, name, router, handler)| == |ObserverOf(walk[router], name).handlers| - handler
    decreases |ObserverOf(walk[router], name).handlers| - handler
  {
    if handler < |ObserverOf(walk[router], name).handlers| {
      HandlersAreCandidates(walk, name, router, handler + 1);
    }
  }

  lemma GateDecides(walk: seq<Visit>, e: Event, data: Context, c: Candidate)
    requires IsCandidate(walk, c)
    requires Evaluated(ObserverOf(walk[c.router], c.name).filters, e, data).0 != Passed
    ensures
      Decision(walk, e, data, c) == OfVerdict(Evaluated(ObserverOf(walk[c.router], c.name).filters, e, data).0)
    ensures CallOf(walk, e, data, c) == []
  {
  }

  /** A router whose common filters do not pass decides for all its handlers at once. */
  lemma {:induction false} ClosedGate(
    walk: seq<Visit>, e: Event, data: Context, name: string, router: nat, handler: nat)
    requires router < |walk| && handler < |ObserverOf(walk[router], name).handlers|
    requires Evaluated(ObserverOf(walk[router], name).filters, e, data).0 != Passed
    ensures
      var verdict := OfVerdict(Evaluated(ObserverOf(walk[router], name).filters, e, data).0);
      && Search(walk, e, data, HandlersFrom(walk, name, router, handler))
           == (if verdict.Some? then verdict.value else Unhandled)
      && Calls(walk, e, data, HandlersFrom(walk, name, router, handler)) == []
    decreases |ObserverOf(walk[router], name).handlers| - handler
  {
    HandlersAreCandidates(walk, name, router, handler);
    var cs := HandlersFrom(walk, name, router, handler);
    assert cs[0] == Candidate(name, router, handler) && cs[1..] == HandlersFrom(walk, name, router, handler + 1);
    GateDecides(walk, e, data, cs[0]);
    CallsStep(walk, e, data, cs);
    if handler + 1 < |ObserverOf(walk[router], name).handlers| {
      ClosedGate(walk, e, data, name, router, handler + 1);
    }
  }

  // ------------------------------------------------------------------ the nested loops

  /** Searching from cs still decides what searching all of it does, after these calls. */
  ghost predicate Resumes(
    walk: seq<Visit>, e: Event, data: Context, all: seq<Candidate>, calls: seq<Candidate>, cs: seq<Candidate>)
  {
    && Search(walk, e, data, all) == Search(walk, e, data, cs)
    && Calls(walk, e, data, all) == calls + Calls(walk, e, data, cs)
  }

  /** After xs has been searched, either it decided or the search goes on in ys. */
  lemma Resume(
    walk: seq<Visit>, e: Event, data: Context, all: seq<Candidate>, calls: seq<Candidate>, xs: seq<Candidate>,
    ys: seq<Candidate>)
    requires Resumes(walk, e, data, all, calls, xs + ys)
    ensures Search(walk, e, data, xs) == Unhandled ==> Resumes(walk, e, data, all, calls + Calls(walk, e, data, xs), ys)
    ensures Search(walk, e, data, xs) != Unhandled ==>
      && Search(walk, e, data, all) == Search(walk, e, data, xs)
      && Calls(walk, e, data, all) == calls + Calls(walk, e, data, xs)
  {
    SearchConcat(walk, e, data, xs, ys);
    CallsConcat(walk, e, data, xs, ys);
    Associative(calls, Calls(walk, e, data, xs), Calls(walk, e, data, ys));
  }

  lemma Unsearched(walk: seq<Visit>, e: Event, data: Context, all: seq<Candidate>)
    ensures Resumes(walk, e, data, all, [], all)
  {
  }

  lemma Exhausted(walk: seq<Visit>, e: Event, data: Context, all: seq<Candidate>, calls: seq<Candidate>)
    requires Resumes(walk, e, data, all, calls, [])
    ensures Search(walk, e, data, all) == Unhandled && Calls(walk, e, data, all) == calls
  {
    assert Calls(walk, e, data, []) == [];
  }

  lemma SearchOne(walk: seq<Visit>, e: Event, data: Context, c: Candidate)
    ensures Search(walk, e, data, [c]) == (var d := Decision(walk, e, data, c); if d.Some? then d.value else Unhandled)
    ensures Calls(walk, e, data, [c]) == CallOf(walk, e, data, c)
  {
    assert [c][1..] == [];
  }

  /** The same for one candidate. */
  lemma ResumeOne(
    walk: seq<Visit>, e: Event, data: Context, all: seq<Candidate>, calls: seq<Candidate>, cs: seq<Candidate>)
    requires Resumes(walk, e, data, all, calls, cs) && cs != []
    ensures Decision(walk, e, data, cs[0]) == None ==>
      Resumes(walk, e, data, all, calls + CallOf(walk, e, data, cs[0]), cs[1..])
    ensures Decision(walk, e, data, cs[0]).Some? ==>
      && Search(walk, e, data, all) == Decision(walk, e, data, cs[0]).value
      && Calls(walk, e, data, all) == calls + CallOf(walk, e, data, cs[0])
  {
    assert cs == [cs[0]] + cs[1..];
    Resume(walk, e, data, all, calls, [cs[0]], cs[1..]);
    SearchOne(walk, e, data, cs[0]);
  }

  /** One candidate: filters on a copy of the context, then the handler in its middleware, which
      may change that copy. */
  method TryHandler(walk: seq<Visit>, e: Event, ghost data: Context, c: Candidate, observerData: Context)
    returns (decision: Option<Outcome>, called: seq<Candidate>)
    requires IsCandidate(walk, c)
    requires (Passed, observerData) == Evaluated(ObserverOf(walk[c.router], c.name).filters, e, data)
    ensures decision == Decision(walk, e, data, c)
    ensures called == CallOf(walk, e, data, c)
  {
    var h := ObserverOf(walk[c.router], c.name).handlers[c.handler];
    var candidateData := new ContextData(observerData);
    var matches := EvaluateFilters(h.filters, e, candidateData);
    assert (matches, candidateData.items) == Admission(walk, e, data, c);
    if matches == Skipped || matches == Refused { return None, []; }
    if matches == Stopped { return Some(Halted), []; }
    if matches.Failed? { return Some(Raised(matches.e)), []; }
    var result := InvokeWithMiddleware(h.callback, walk[c.router].middleware, e, candidateData);
    match result {
      case Skip => return None, [c];
      case Stop => return Some(Halted), [c];
      case Throw(x) => return Some(Raised(x)), [c];
      case Result(v) => return Some(Handled(v)), [c];
    }
  }

  /** The handlers of one router whose common filters passed. */
  method RouteHandlers(walk: seq<Visit>, e: Event, data: Context, name: string, router: nat, observerData: Context)
    returns (o: Outcome, calls: seq<Candidate>)
    requires router < |walk|
    requires (Passed, observerData) == Evaluated(ObserverOf(walk[router], name).filters, e, data)
    ensures o == Search(walk, e, data, HandlersFrom(walk, name, router, 0))
    ensures calls == Calls(walk, e, data, HandlersFrom(walk, name, router, 0))
  {
    calls := [];
    ghost var all := HandlersFrom(walk, name, router, 0);
    Unsearched(walk, e, data, all);
    for j := 0 to |ObserverOf(walk[router], name).handlers|
      invariant Resumes(walk, e, data, all, calls, HandlersFrom(walk, name, router, j))
    {
      ghost var left := HandlersFrom(walk, name, router, j);
      assert left[0] == Candidate(name, router, j) && left[1..] == HandlersFrom(walk, name, router, j + 1);
      ResumeOne(walk, e, data, all, calls, left);
      var decision, called := TryHandler(walk, e, data, Candidate(name, router, j), observerData);
      calls := calls + called;
      if decision.Some? { return decision.value, calls; }
    }
    Exhausted(walk, e, data, all, calls);
    return Unhandled, calls;
  }

  /** _route_pass: one observer name, every router of the walk. */
  method RoutePass(walk: seq<Visit>, e: Event, data: Context, name: string) returns (o: Outcome, calls: seq<Candidate>)
    ensures o == Search(walk, e, data, RoutersFrom(walk, name, 0))
    ensures calls == Calls(walk, e, data, RoutersFrom(walk, name, 0))
  {
    calls := [];
    ghost var all := RoutersFrom(walk, name, 0);
    Unsearched(walk, e, data, all);
    for i := 0 to |walk|
      invariant Resumes(walk, e, data, all, calls, RoutersFrom(walk, name, i))
    {
      assert RoutersFrom(walk, name, i) == HandlersFrom(walk, name, i, 0) + RoutersFrom(walk, name, i + 1);
      Resume(walk, e, data, all, calls, HandlersFrom(walk, name, i, 0), RoutersFrom(walk, name, i + 1));
      var inner, innerCalls := RouteRouter(walk, e, data, name, i);
      calls := calls + innerCalls;
      if inner != Unhandled { return inner, calls; }
    }
    Exhausted(walk, e, data, all, calls);
    return Unhandled, calls;
  }

  /** The body of its outer loop. */
  method RouteRouter(walk: seq<Visit>, e: Event, data: Context, name: string, i: nat)
    returns (o: Outcome, calls: seq<Candidate>)
    requires i < |walk|
    ensures o == Search(walk, e, data, HandlersFrom(walk, name, i, 0))
    ensures calls == Calls(walk, e, data, HandlersFrom(walk, name, i, 0))
  {
    var observer := ObserverOf(walk[i], name);
    if observer.handlers == [] { return Unhandled, []; }
    var observerData := new ContextData(data);
    var matches := EvaluateFilters(observer.filters, e, observerData);
    if matches != Passed { ClosedGate(walk, e, data, name, i, 0); }
    if matches == Skipped { return Unhandled, []; }
    if matches == Stopped { return Halted, []; }
    if matches.Failed? { return Raised(matches.e), []; }
    if matches == Refused { return Unhandled, []; }
    o, calls := RouteHandlers(walk, e, data, name, i, observerData.items);
  }

  /** What strict_interactions makes of an event nobody handled. */
  function Unmatched(e: Event, strict: bool): Outcome {
    if strict && (e.Action? || e.Command?) then Raised(UNHANDLED_INTERACTION) else Unhandled
  }

  function Routed(walk: seq<Visit>, e: Event, data: Context, strict: bool): Outcome {
    var found := Search(walk, e, data, Candidates(walk, ObserverNames(e)));
    if found == Unhandled then Unmatched(e, strict) else found
  }

  /** _route_event is the flat search over all candidates of all its observers. */
  method RouteEvent(walk: seq<Visit>, e: Event, data: Context, strict: bool) returns (o: Outcome, calls: seq<Candidate>)
    ensures o == Routed(walk, e, data, strict)
    ensures calls == Calls(walk, e, data, Candidates(walk, ObserverNames(e)))
  {
    var names := SpecificObserverNames(e);
    ghost var all := ObserverNames(e);
    calls := [];
    for i := 0 to |names|
      invariant Resumes(walk, e, data, Candidates(walk, all), calls, Candidates(walk, all[i..]))
    {
      assert all[i..][1..] == all[i + 1..] && all[i..][0] == names[i];
      var outcome, passCalls := RoutePass(walk, e, data, names[i]);
      Resume(walk, e, data, Candidates(walk, all), calls, RoutersFrom(walk, names[i], 0),
        Candidates(walk, all[i + 1..]));
      calls := calls + passCalls;
      if outcome != Unhandled { return outcome, calls; }
    }
    if !e.ErrorEvent? {
      assert all[|names|..] == ["event"];
      OneObserver(walk, "event");
      var outcome, passCalls := RoutePass(walk, e, data, "event");
      calls := calls + passCalls;
      if outcome == Unhandled { return Unmatched(e, strict), calls; }
      return outcome, calls;
    }
    assert all[|names|..] == [];
    Exhausted(walk, e, data, Candidates(walk, all), calls);
    return Unhandled, calls;
  }

  lemma OneObserver(walk: seq<Visit>, name: string)
    ensures Candidates(walk, [name]) == RoutersFrom(walk, name, 0)
  {
    assert [name][1..] == [];
    assert Candidates(walk, [name]) == RoutersFrom(walk, name, 0) + Candidates(walk, []);
  }

  datatype Fed = Returned(value: Option<Value>) | Escaped(e: Exception)

  /** What the dispatcher was configured with. state: the FSM context of the event's key. */
  datatype Settings = Settings(bot: Option<Value>, preview: Value, state: Option<Value>)

  /** The context an event is routed in: the caller may name another bot, but neither the
      preview enrollment nor the FSM context. */
  function FullContext(context: Context, settings: Settings): Context {
    var named := if "bot" !in context && settings.bot.Some? then context["bot" := settings.bot.value] else context;
    var enrolled := named["preview_capabilities" := settings.preview];
    if settings.state.Some? then enrolled["state" := settings.state.value] else enrolled
  }

  /** What becomes of an exception that escaped routing: one that is no `Exception` goes on at once;
      any other goes to the error observers, and on unless the first candidate there that decides
      returns a value, or raises in its turn. */
  ghost predicate Recovers(walk: seq<Visit>, x: Exception, data: Context, r: Fed) {
    if x.Interrupt? then r == Escaped(x)
    else
      exists k :: RecoversAt(walk, x, data, r, k)
  }

  ghost predicate RecoversAt(walk: seq<Visit>, x: Exception, data: Context, r: Fed, k: nat) {
    var cs := Candidates(walk, ["error"]);
    && FirstDecides(walk, ErrorEvent(x), data, cs, k)
    && match (if k < |cs| then Decision(walk, ErrorEvent(x), data, cs[k]) else None)
       case Some(Handled(v)) => r == Returned(Some(v))
       case Some(Raised(y)) => r == Escaped(y)
       case _ => r == Escaped(x)
  }

  /** What becomes of an event: the first candidate that decides returns the value fed back, stops
      the event, which feeds back nothing, or raises; an event nobody decides feeds back nothing,
      but for an interaction under strict_interactions. */
  ghost predicate Feeds(walk: seq<Visit>, e: Event, data: Context, strict: bool, r: Fed) {
    exists k :: FeedsAt(walk, e, data, strict, r, k)
  }

  ghost predicate FeedsAt(walk: seq<Visit>, e: Event, data: Context, strict: bool, r: Fed, k: nat) {
    var cs := Candidates(walk, ObserverNames(e));
    && FirstDecides(walk, e, data, cs, k)
    && match (if k < |cs| then Decision(walk, e, data, cs[k]) else None)
       case Some(Handled(v)) => r == Returned(Some(v))
       case Some(Raised(x)) => Recovers(walk, x, data, r)
       case Some(_) => r == Returned(None)
       case None =>
         if strict && (e.Action? || e.Command?) then Recovers(walk, UNHANDLED_INTERACTION, data, r)
         else r == Returned(None)
  }

  /** The except branch of feed_update. */
  method Recover(walk: seq<Visit>, x: Exception, data: Context) returns (r: Fed)
    ensures Recovers(walk, x, data, r)
  {
    if x.Interrupt? { return Escaped(x); }
    ghost var k := SearchUpTo(walk, ErrorEvent(x), data, Candidates(walk, ["error"]));
    OneObserver(walk, "error");
    var errorOutcome, _ := RoutePass(walk, ErrorEvent(x), data, "error");
    match errorOutcome {
      case Handled(v) => r := Returned(Some(v));
      case Raised(y) => r := Escaped(y);
      case _ => r := Escaped(x);
    }
    assert RecoversAt(walk, x, data, r, k);
  }

  method FeedUpdate(walk: seq<Visit>, e: Event, context: Context, settings: Settings, strict: bool) returns (r: Fed)
    ensures Feeds(walk, e, FullContext(context, settings), strict, r)
  {
    var data := context;
    if "bot" !in data && settings.bot.Some? { data := data["bot" := settings.bot.value]; }
    data := data["preview_capabilities" := settings.preview];
    if settings.state.Some? { data := data["state" := settings.state.value]; }
    var o, _ := RouteEvent(walk, e, data, strict);
    match o {
      case Handled(v) => r := Returned(Some(v));
      case Raised(x) => r := Recover(walk, x, data);
      case _ => r := Returned(None);
    }
    RoutedFeeds(walk, e, data, strict, r);
  }

  lemma RoutedFeeds(walk: seq<Visit>, e: Event, data: Context, strict: bool, r: Fed)
    requires
      match Routed(walk, e, data, strict)
      case Handled(v) => r == Returned(Some(v))
      case Raised(x) => Recovers(walk, x, data, r)
      case _ => r == Returned(None)
    ensures Feeds(walk, e, data, strict, r)
  {
    var k := SearchUpTo(walk, e, data, Candidates(walk, ObserverNames(e)));
    assert FeedsAt(walk, e, data, strict, r, k);
  }

  /** The caller's context, with these keys settled: the bot, unless the caller names one, and always
      the preview enrollment and the FSM context, which no caller can replace. */
  lemma ContextOfAnEvent(context: Context, settings: Settings, k: string)
    ensures
      var data := FullContext(context, settings);
      var expected :=
        if k == "state" && settings.state.Some? then settings.state
        else if k == "preview_capabilities" then Some(settings.preview)
        else if k in context then Some(context[k])
        else if k == "bot" then settings.bot
        else None;
      if expected.Some? then k in data && data[k] == expected.value else k !in data
  {
  }

  // ------------------------------------------------------------------ what the search means

  /** k is the place of the first candidate that decides, or the number of candidates. */
  predicate FirstDecides(walk: seq<Visit>, e: Event, data: Context, cs: seq<Candidate>, k: nat) {
    && k <= |cs| && (forall i | 0 <= i < k :: Decision(walk, e, data, cs[i]) == None)
    && (k < |cs| ==> Decision(walk, e, data, cs[k]).Some?)
  }

  /** A candidate invoked among the first is the first of them or among the rest. */
  lemma InvokedUpTo(walk: seq<Visit>, e: Event, data: Context, cs: seq<Candidate>, k: nat, c: Candidate)
    requires cs != [] && k > 0
    ensures (exists i | 0 <= i < |cs| && i <= k :: cs[i] == c && Invoked(walk, e, data, cs[i])) <==>
      || c in CallOf(walk, e, data, cs[0])
      || exists i | 0 <= i < |cs[1..]| && i <= k - 1 :: cs[1..][i] == c && Invoked(walk, e, data, cs[1..][i])
  {
    if exists i | 0 <= i < |cs[1..]| && i <= k - 1 :: cs[1..][i] == c && Invoked(walk, e, data, cs[1..][i]) {
      var i :| 0 <= i < |cs[1..]| && i <= k - 1 && cs[1..][i] == c && Invoked(walk, e, data, cs[1..][i]);
      assert cs[i + 1] == c;
    }
    if exists i | 0 <= i < |cs| && i <= k :: cs[i] == c && Invoked(walk, e, data, cs[i]) {
      var i :| 0 <= i < |cs| && i <= k && cs[i] == c && Invoked(walk, e, data, cs[i]);
      if i > 0 { assert cs[1..][i - 1] == c; }
    }
  }

  /** The candidate is called exactly when it is invoked no later than the first that decides. */
  lemma {:induction false} CallUpTo(
    walk: seq<Visit>, e: Event, data: Context, cs: seq<Candidate>, k: nat, c: Candidate)
    requires FirstDecides(walk, e, data, cs, k)
    ensures c in Calls(walk, e, data, cs) <==>
      exists i | 0 <= i < |cs| && i <= k :: cs[i] == c && Invoked(walk, e, data, cs[i])
    decreases k
  {
    if cs == [] {
      assert Calls(walk, e, data, cs) == [];
    } else {
      CallsStep(walk, e, data, cs);
      if k > 0 {
        assert FirstDecides(walk, e, data, cs[1..], k - 1);
        CallUpTo(walk, e, data, cs[1..], k - 1, c);
        InvokedUpTo(walk, e, data, cs, k, c);
      } else {
        assert Decision(walk, e, data, cs[0]).Some?;
      }
    }
  }

  lemma {:induction false} SearchUpTo(walk: seq<Visit>, e: Event, data: Context, cs: seq<Candidate>) returns (k: nat)
    ensures FirstDecides(walk, e, data, cs, k)
    ensures Search(walk, e, data, cs) == if k < |cs| then Decision(walk, e, data, cs[k]).value else Unhandled
  {
    if cs == [] || Decision(walk, e, data, cs[0]).Some? {
      k := 0;
    } else {
      var rest := SearchUpTo(walk, e, data, cs[1..]);
      k := rest + 1;
      assert forall i | 0 < i < |cs| :: cs[i] == cs[1..][i - 1];
    }
  }

  /** The search ends at the first candidate that decides, and calls no handler after it: the
      calls are the invoked ones among the candidates up to and including that one. */
  lemma SearchIsFirstMatch(walk: seq<Visit>, e: Event, data: Context, cs: seq<Candidate>) returns (k: nat)
    ensures FirstDecides(walk, e, data, cs, k)
    ensures Search(walk, e, data, cs) == if k < |cs| then Decision(walk, e, data, cs[k]).value else Unhandled
    ensures forall c :: c in Calls(walk, e, data, cs) <==>
      exists i | 0 <= i < |cs| && i <= k :: cs[i] == c && Invoked(walk, e, data, cs[i])
  {
    k := SearchUpTo(walk, e, data, cs);
    forall c
      ensures c in Calls(walk, e, data, cs) <==>
        exists i | 0 <= i < |cs| && i <= k :: cs[i] == c && Invoked(walk, e, data, cs[i])
    {
      CallUpTo(walk, e, data, cs, k, c);
    }
  }

  /** a is offered the event before b: an earlier observer; or the same, and a router earlier in
      the walk; or the same again, and a handler registered earlier. */
  predicate Earlier(names: seq<string>, a: Candidate, b: Candidate) {
    || (exists m, n | 0 <= m < n < |names| :: names[m] == a.name && names[n] == b.name)
    || (a.name == b.name && (a.router < b.router || (a.router == b.router && a.handler < b.handler)))
  }

  predicate InOrder(names: seq<string>, cs: seq<Candidate>) {
    forall i, j | 0 <= i < j < |cs| :: Earlier(names, cs[i], cs[j])
  }

  lemma {:induction false} RoutersInOrder(walk: seq<Visit>, name: string, router: nat, names: seq<string>)
    requires router <= |walk|
    ensures InOrder(names, RoutersFrom(walk, name, router))
    ensures forall c :: c in RoutersFrom(walk, name, router) <==>
      c.name == name && router <= c.router && IsCandidate(walk, c)
    decreases |walk| - router
  {
    if router < |walk| {
      HandlersAreCandidates(walk, name, router, 0);
      RoutersInOrder(walk, name, router + 1, names);
      var own, rest := HandlersFrom(walk, name, router, 0), RoutersFrom(walk, name, router + 1);
      forall i, j | 0 <= i < j < |own + rest| ensures Earlier(names, (own + rest)[i], (own + rest)[j]) {
        if i < |own| <= j { assert rest[j - |own|] in rest; }
      }
      forall c ensures c in own + rest <==> c.name == name && router <= c.router && IsCandidate(walk, c) {
        if c.name == name && c.router == router && IsCandidate(walk, c) {
          assert own[c.handler] == c;
        }
      }
    }
  }

  /** The flat list holds exactly the handlers registered for the given observers, in order of
      observer, then pre-order of the routers, then registration. */
  lemma {:induction false} CandidatesInOrder(walk: seq<Visit>, names: seq<string>)
    ensures InOrder(names, Candidates(walk, names))
    ensures forall c :: c in Candidates(walk, names) <==> c.name in names && IsCandidate(walk, c)
  {
    if names != [] {
      RoutersInOrder(walk, names[0], 0, names);
      CandidatesInOrder(walk, names[1..]);
      var first, rest := RoutersFrom(walk, names[0], 0), Candidates(walk, names[1..]);
      forall i, j | 0 <= i < j < |first + rest| ensures Earlier(names, (first + rest)[i], (first + rest)[j]) {
        if i < |first| <= j {
          assert first[i] in first && rest[j - |first|] in rest;
          var n :| 0 <= n < |names[1..]| && names[1..][n] == rest[j - |first|].name;
          assert names[0] == first[i].name && names[n + 1] == rest[j - |first|].name;
        } else if |first| <= i {
          assert Earlier(names[1..], rest[i - |first|], rest[j - |first|]);
          EarlierInMore(names, rest[i - |first|], rest[j - |first|]);
        }
      }
    }
  }

  lemma EarlierInMore(names: seq<string>, a: Candidate, b: Candidate)
    requires names != [] && Earlier(names[1..], a, b)
    ensures Earlier(names, a, b)
  {
    if exists m, n | 0 <= m < n < |names[1..]| :: names[1..][m] == a.name && names[1..][n] == b.name {
      var m, n :| 0 <= m < n < |names[1..]| && names[1..][m] == a.name && names[1..][n] == b.name;
      assert names[m + 1] == a.name && names[n + 1] == b.name;
    }
  }

  /** No candidate is offered an event twice. */
  lemma EachCandidateOnce(walk: seq<Visit>, e: Event)
    ensures var cs := Candidates(walk, ObserverNames(e)); forall i, j | 0 <= i < j < |cs| :: cs[i] != cs[j]
  {
    var names := ObserverNames(e);
    CandidatesInOrder(walk, names);
    assert forall m, n | 0 <= m < n < |names| :: names[m] != names[n];
  }
}
