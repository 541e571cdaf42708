/**
 * The worker of mindstone/worker.py: a platform of named components, a table of routines
 * that run components on a timer, and the request handler that dispatches each
 * `(method, resource, kwargs)` item of a request to one of the worker's operations and
 * answers with a response envelope.
 */
module Worker {
  import opened Common
  import opened OrderedDict
  import opened Utils
  import opened Connection

  // Components and platforms
  // ~~~~~~~~~~~~~~~~~~~~~~~~

  /**
   * What the model knows of a component class: its name, the constructor parameters it
   * requires and those it accepts (all of them when it takes `**kwargs`), the methods it
   * offers and whether it has `read`.
   */
  datatype ComponentType = ComponentType(
    className: string,
    required: set<string>,
    accepted: set<string>,
    anyKeyword: bool,
    operations: set<string>,
    readable: bool)

  /** A constructed component: its type label, its class and the setup it was built with. */
  datatype Component = Component(typeName: string, kind: ComponentType, setup: map<string, Value>)

  /** A method called on a component: the component's key, the method and its keyword arguments. */
  datatype Invocation = Invocation(key: string, operation: string, kwargs: map<string, Value>)

  function ComponentNotFound(key: string): Error {
    Error(RuntimeError, "Component '" + key + "' could not be found.")
  }

  function UnsupportedType(typeName: string, types: ODict<string, ComponentType>): Error {
    Error(RuntimeError, "Component type '" + typeName + "' is not supported. Try: " + Join(types.keys, ", "))
  }

  /** `**v` in a call: `None` (the default) passes nothing; anything but a mapping raises TypeError. */
  function KeywordsOf(v: Value): (r: Result<map<string, Value>>)
    ensures r.Ok? <==> v.VNone? || v.VDict?
    ensures r.Ok? && v.VNone? ==> r.value == map[]
    ensures r.Ok? && v.VDict? ==> r.value == v.entries
    ensures r.Err? ==> r.error.kind == TypeError
  {
    match v
    case VNone => Ok(map[])
    case VDict(d) => Ok(d)
    case _ => Err(Error(TypeError, "argument after ** must be a mapping, not " + TypeName(v)))
  }

  /** Whether `component_types[typeName](**setup)` builds a component. */
  predicate Constructible(types: ODict<string, ComponentType>, typeName: string, setup: map<string, Value>) {
    && typeName in types.entries
    && types.entries[typeName].required <= setup.Keys
    && (types.entries[typeName].anyKeyword || setup.Keys <= types.entries[typeName].accepted)
  }

  /**
   * What `add_component` with `**setup` does to a platform's components and returns: a
   * setup that is not a mapping, or that repeats the method's own parameters, raises
   * TypeError and changes nothing; otherwise any component under `key` is removed, and the
   * new one is stored when it can be built, or else the constructor's error is raised.
   */
  predicate ComponentAdded(before: ODict<string, Component>, types: ODict<string, ComponentType>, key: string,
                           typeName: string, setup: Value, after: ODict<string, Component>, r: Result<Value>)
    requires before.Valid()
  {
    match KeywordsOf(setup)
    case Err(e) => r == Err(e) && after == before
    case Ok(kw) =>
      if !({"self", "key", "type"} !! kw.Keys) then r.Err? && r.error.kind == TypeError && after == before
      else if Constructible(types, typeName, kw) then
        r == Ok(VNone) && after == Put(Remove(before, key), key, Component(typeName, types.entries[typeName], kw))
      else
        && after == Remove(before, key)
        && r.Err? && r.error.kind == (if typeName in types.entries then (if types.entries[typeName].required <= kw.Keys then TypeError else RuntimeError) else RuntimeError)
  }

  /** `PlatformABC`: the components of one device, keyed by name in insertion order. */
  class Platform {
    const componentTypes: ODict<string, ComponentType>
    var components: ODict<string, Component>
    /** The keys of the components whose `cleanup` has run, in order. */
    var cleaned: seq<string>
    /** The methods called on components, in order. */
    var invoked: seq<Invocation>

    ghost predicate Valid()
      reads this
    {
      componentTypes.Valid() && components.Valid()
    }

    constructor (types: ODict<string, ComponentType>)
      requires types.Valid()
      ensures Valid() && componentTypes == types
      ensures components.entries == map[] && cleaned == [] && invoked == []
    {
      componentTypes := types;
      components := Empty();
      cleaned := [];
      invoked := [];
    }

    /** `remove_component`: a present component is cleaned up and deleted; a missing key is ignored. */
    method RemoveComponent(key: string)
      requires Valid()
      modifies this
      ensures Valid()
      ensures components == Remove(old(components), key)
      ensures cleaned == old(cleaned) + (if key in old(components.entries) then [key] else [])
      ensures invoked == old(invoked)
    {
      if key in components.entries {
        cleaned := cleaned + [key];
        components := Remove(components, key);
      }
    }

    /**
     * `add_component`: any component under `key` is removed first, even when the new one
     * then fails to build. An unknown type or a missing required field raises
     * RuntimeError, a setup field the constructor does not take raises TypeError, and
     * otherwise the new component is stored under `key`, last in order.
     */
    method AddComponent(key: string, typeName: string, setup: map<string, Value>) returns (r: Outcome)
      requires Valid()
      modifies this
      ensures Valid() && invoked == old(invoked)
      ensures cleaned == old(cleaned) + (if key in old(components.entries) then [key] else [])
      ensures r.Done? <==> Constructible(componentTypes, typeName, setup)
      ensures r.Done? ==>
        components == Put(Remove(old(components), key), key, Component(typeName, componentTypes.entries[typeName], setup))
      ensures r.Done? ==> components.keys[|components.keys| - 1] == key
      ensures r.Raised? ==> components == Remove(old(components), key)
      ensures typeName !in componentTypes.entries ==> r == Raised(UnsupportedType(typeName, componentTypes))
      ensures r.Raised? ==> (r.error.kind ==
        if typeName in componentTypes.entries && componentTypes.entries[typeName].required <= setup.Keys
        then TypeError else RuntimeError)
    {
      RemoveComponent(key);
      if typeName !in componentTypes.entries {
        return Raised(UnsupportedType(typeName, componentTypes));
      }
      var kind := componentTypes.entries[typeName];
      if !(kind.required <= setup.Keys) {
        var listed := Enumerate(kind.required);
        return Raised(Error(RuntimeError,
          "Component setup for '" + key + "' does not satisfy all the required fields (" + Join(listed, ", ") + ")."));
      }
      if !kind.anyKeyword && !(setup.Keys <= kind.accepted) {
        return Raised(Error(TypeError, "__init__() got an unexpected keyword argument"));
      }
      components := Put(components, key, Component(typeName, kind, setup));
      r := Done;
    }
  }

  /**
   * The call `execute_component` makes on a platform with these components: the component
   * must exist, must have the method, and the keyword arguments must be a mapping (or `None`).
   */
  function CallOf(components: ODict<string, Component>, key: string, operation: string, kwargs: Value): (r: Result<Invocation>)
    ensures key !in components.entries ==> r == Err(ComponentNotFound(key))
    ensures r.Ok? <==>
      key in components.entries && operation in components.entries[key].kind.operations && KeywordsOf(kwargs).Ok?
    ensures r.Ok? ==> r.value == Invocation(key, operation, KeywordsOf(kwargs).value)
    ensures key in components.entries && operation !in components.entries[key].kind.operations ==>
      r == Err(NoAttributeOn(components.entries[key].kind.className, operation))
  {
    if key !in components.entries then Err(ComponentNotFound(key))
    else if operation !in components.entries[key].kind.operations then
      Err(NoAttributeOn(components.entries[key].kind.className, operation))
    else match KeywordsOf(kwargs)
      case Err(e) => Err(e)
      case Ok(kw) => Ok(Invocation(key, operation, kw))
  }

  // The worker's operations
  // ~~~~~~~~~~~~~~~~~~~~~~~

  /** A routine: the component and method it runs, the keyword arguments and the period. */
  datatype Routine = Routine(executor: string, operation: string, kwargs: Value, interval: Value)

  /** Python's truth value of a decoded value. */
  predicate Falsy(v: Value) {
    match v
    case VNone => true
    case VBool(b) => !b
    case VInt(i) => i == 0
    case VFloat(f) => f == 0.0
    case VStr(s) => s == []
    case VList(xs) => xs == []
    case VDict(d) => d == map[]
  }

  /**
   * `set(selected) if selected else <all>` in `get_observations`: `None` selects every
   * component; a list selects the strings in it; a string selects its characters and a
   * dictionary its keys. A list holding a list or dictionary is unhashable, and a number
   * is not iterable.
   */
  function Selection(v: Value): (r: Result<Option<set<string>>>)
    ensures Falsy(v) ==> r == Ok(None)
    ensures r.Ok? && r.value.Some? && v.VList? ==> forall s :: s in r.value.value <==> VStr(s) in v.items
    ensures r.Err? ==> r.error.kind == TypeError
    ensures v.VList? && !Falsy(v) ==>
      (r.Err? <==> exists i :: 0 <= i < |v.items| && (v.items[i].VList? || v.items[i].VDict?))
  {
    if Falsy(v) then Ok(None)
    else match v
      case VList(xs) =>
        if exists i :: 0 <= i < |xs| && (xs[i].VList? || xs[i].VDict?) then Err(Error(TypeError, "unhashable type"))
        else Ok(Some(set i | 0 <= i < |xs| && xs[i].VStr? :: xs[i].s))
      case VDict(d) => Ok(Some(d.Keys))
      case VStr(s) => Ok(Some(set i | 0 <= i < |s| :: [s[i]]))
      case _ => Err(Error(TypeError, "'" + TypeName(v) + "' object is not iterable"))
  }

  /** The observations: `read()` of every readable component the selection names. */
  function Observed(components: map<string, Component>, selection: Option<set<string>>, read: string -> Value): (r: map<string, Value>)
    ensures forall tag :: tag in r <==>
      tag in components && components[tag].kind.readable && (selection.None? || tag in selection.value)
    ensures forall tag :: tag in r ==> r[tag] == read(tag)
  {
    map tag | tag in components && components[tag].kind.readable && (selection.None? || tag in selection.value) :: read(tag)
  }

  /** Selecting components only narrows the observations to the selected ones. */
  lemma ObservedSelectionNarrows(components: map<string, Component>, selected: set<string>, read: string -> Value)
    ensures Observed(components, Some(selected), read) == Observed(components, None, read) - (components.Keys - selected)
  {
  }

  /** The keys as a list of strings. */
  function StrList(keys: seq<string>): (r: seq<Value>)
    ensures |r| == |keys|
    ensures forall i :: 0 <= i < |keys| ==> r[i] == VStr(keys[i])
  {
    seq(|keys|, i requires 0 <= i < |keys| => VStr(keys[i]))
  }

  /** A value of Python's `None`-returning operation: `None`, or the exception. */
  function Returned(o: Outcome): (r: Result<Value>)
    ensures o.Done? <==> r == Ok(VNone)
    ensures o.Raised? ==> r == Err(o.error)
  {
    match o
    case Done => Ok(VNone)
    case Raised(e) => Err(e)
  }

  /** A string argument; the model refuses anything else with TypeError. */
  function StrArg(v: Value): (r: Result<string>)
    ensures r.Ok? <==> v.VStr?
    ensures r.Ok? ==> v == VStr(r.value)
  {
    match v
    case VStr(s) => Ok(s)
    case _ => Err(Error(TypeError, "expected a str, got " + TypeName(v)))
  }

  // The handler table
  // ~~~~~~~~~~~~~~~~~

  /** The methods of the handler table, in its order. */
  const Methods: seq<string> := ["add", "remove", "execute", "get"]

  /** The resources each method handles. */
  const Resources: map<string, set<string>> := map[
    "add" := {"component", "routine", "platform"},
    "remove" := {"component", "routine", "platform"},
    "execute" := {"component"},
    "get" := {"observations", "components", "routines"}]

  /** The keyword parameters of each handler: those it requires, and those with a default. */
  function Parameters(methodName: string, resource: string): (set<string>, set<string>) {
    match (methodName, resource)
    case ("add", "component") => ({"key", "type"}, {"setup"})
    case ("add", "routine") => ({"key", "interval", "executor", "operation", "kwargs"}, {})
    case ("add", "platform") => ({"type"}, {})
    case ("remove", "component") => ({"key"}, {})
    case ("remove", "routine") => ({"key"}, {})
    case ("execute", "component") => ({"key", "operation"}, {"kwargs"})
    case ("get", "observations") => ({}, {"selected"})
    case _ => ({}, {})
  }

  /** Calling a handler with `**kwargs`: an unknown keyword, then a missing one, raises TypeError. */
  function Bind(kwargs: map<string, Value>, parameters: (set<string>, set<string>)): (r: Outcome)
    ensures r.Done? <==> parameters.0 <= kwargs.Keys <= parameters.0 + parameters.1
    ensures r.Raised? ==> r.error.kind == TypeError
  {
    if !(kwargs.Keys <= parameters.0 + parameters.1) then Raised(Error(TypeError, "got an unexpected keyword argument"))
    else if !(parameters.0 <= kwargs.Keys) then Raised(Error(TypeError, "missing a required argument"))
    else Done
  }

  function InvalidMethod(methodName: string): Error {
    Error(RuntimeError, "Received method '" + methodName + "' is invalid. Try: " + Join(Methods, ", "))
  }

  /** The ValueError of unpacking `n` values into three names. */
  function UnpackError(n: nat): Error
    requires n != 3
  {
    if n < 3 then Error(ValueError, "not enough values to unpack (expected 3, got " + NatToString(n) + ")")
    else Error(ValueError, "too many values to unpack (expected 3)")
  }

  /**
   * What `_process_request_items` does with one item before calling its handler: unpack it
   * into method, resource and kwargs, print the method (a string is needed) and the kwargs
   * (a mapping is needed), check the method against the table and look the resource up.
   */
  function Route(item: Value): (r: Result<(string, string, map<string, Value>)>)
    ensures r.Ok? ==> r.value.0 in Resources && r.value.1 in Resources[r.value.0]
    ensures r.Ok? ==> item == VList([VStr(r.value.0), VStr(r.value.1), VDict(r.value.2)])
    ensures item.VList? && |item.items| != 3 ==> r == Err(UnpackError(|item.items|))
    ensures (item.VList? && |item.items| == 3 && item.items[0].VStr? && item.items[2].VDict?
      && item.items[0].s !in Resources) ==> r == Err(InvalidMethod(item.items[0].s))
    ensures (item.VList? && |item.items| == 3 && item.items[0].VStr? && item.items[2].VDict?
      && item.items[0].s in Resources && item.items[1].VStr? && item.items[1].s !in Resources[item.items[0].s])
      ==> r == Err(KeyErr(item.items[1].s))
  {
    match item
    case VList(xs) =>
      if |xs| != 3 then Err(UnpackError(|xs|))
      else if !xs[0].VStr? then Err(Error(TypeError, "can only concatenate str (not \"" + TypeName(xs[0]) + "\") to str"))
      else if !xs[2].VDict? then Err(NoAttributeOn(TypeName(xs[2]), "items"))
      else if xs[0].s !in Resources then Err(InvalidMethod(xs[0].s))
      else (
        match xs[1]
        case VStr(resource) =>
          if resource in Resources[xs[0].s] then
            assert item == VList([xs[0], xs[1], xs[2]]);
            Ok((xs[0].s, resource, xs[2].entries))
          else Err(KeyErr(resource))
        case VList(_) => Err(Error(TypeError, "unhashable type: 'list'"))
        case VDict(_) => Err(Error(TypeError, "unhashable type: 'dict'"))
        case other => Err(Error(KeyError, TypeName(other))))
    case VStr(s) => if |s| != 3 then Err(UnpackError(|s|)) else Err(NoAttributeOn("str", "items"))
    case VDict(d) => if |d| != 3 then Err(UnpackError(|d|)) else Err(NoAttributeOn("str", "items"))
    case _ => Err(Error(TypeError, "cannot unpack non-iterable " + TypeName(item) + " object"))
  }

  /** What a handled item's handler returned, or the exception it raised. */
  function Answer(r: Result<Handled>): Result<Value> {
    match r
    case Ok(h) => Ok(h.result)
    case Err(e) => Err(e)
  }

  /** One handled item: its method and resource and what its handler returned. */
  datatype Handled = Handled(methodName: string, resource: string, result: Value)

  /** The item names the method and resource of the handled record. */
  predicate Routes(item: Value, h: Handled) {
    Route(item).Ok? && Route(item).value.0 == h.methodName && Route(item).value.1 == h.resource
  }

  /**
   * What a `get` handler returns, given the platform's components (`None` when no platform
   * is set) and the routines: `get_observations(selected)`, `get_components()` or
   * `get_routines()`.
   */
  function Got(components: Option<ODict<string, Component>>, routines: ODict<string, Routine>,
               resource: string, kwargs: map<string, Value>, read: string -> Value): Result<Value>
  {
    if resource == "observations" then
      match Selection(Lookup(kwargs, "selected"))
      case Err(e) => Err(e)
      case Ok(selection) =>
        if components.None? then Err(NoAttributeOn("NoneType", if selection.None? then "keys" else "items"))
        else Ok(VDict(Observed(components.value.entries, selection, read)))
    else if resource == "components" then
      if components.None? then Err(Error(TypeError, "'NoneType' object is not iterable"))
      else Ok(VList(StrList(components.value.keys)))
    else Ok(VList(StrList(routines.keys)))
  }

  /** The item routes to a `get` handler, with arguments its signature accepts. */
  predicate Getting(item: Value) {
    && Route(item).Ok? && Route(item).value.0 == "get"
    && Bind(Route(item).value.2, Parameters("get", Route(item).value.1)).Done?
  }

  /** The first `n` items all route to `get` handlers. */
  predicate GetsOnly(items: seq<Value>, n: nat) {
    n <= |items| && (n == 0 || (GetsOnly(items, n - 1) && Getting(items[n - 1])))
  }

  lemma {:induction false} GetsOnlyPrefix(items: seq<Value>, m: nat, n: nat)
    requires m <= n && GetsOnly(items, n)
    ensures GetsOnly(items, m)
    decreases n
  {
    if m < n {
      GetsOnlyPrefix(items, m, n - 1);
    }
  }

  /** The item routes to a handler, and `h` records what `Got` gives for it on `components` and `routines`. */
  ghost predicate Answers(item: Value, h: Handled, components: Option<ODict<string, Component>>,
                          routines: ODict<string, Routine>, read: string -> Value)
  {
    Route(item).Ok? && Ok(h.result) == Got(components, routines, Route(item).value.1, Route(item).value.2, read)
  }

  /**
   * Each handled item of a run of `get` items from the start answered what `Got` gives on
   * `components` and `routines`.
   */
  ghost predicate GotInOrder(items: seq<Value>, handled: seq<Handled>,
                             components: Option<ODict<string, Component>>, routines: ODict<string, Routine>,
                             read: string -> Value)
  {
    forall i :: 0 <= i < |handled| && i < |items| && GetsOnly(items, i + 1) ==> Answers(items[i], handled[i], components, routines, read)
  }

  lemma {:induction false} GotStep(items: seq<Value>, handled: seq<Handled>, h: Handled,
                components: Option<ODict<string, Component>>, routines: ODict<string, Routine>,
                read: string -> Value)
    requires GotInOrder(items, handled, components, routines, read)
    requires |handled| < |items|
    requires GetsOnly(items, |handled| + 1) ==> Answers(items[|handled|], h, components, routines, read)
    ensures GotInOrder(items, handled + [h], components, routines, read)
  {
    var more := handled + [h];
    forall i | 0 <= i < |more| && i < |items| && GetsOnly(items, i + 1)
      ensures Answers(items[i], more[i], components, routines, read)
    {
      if i < |handled| {
        assert more[i] == handled[i];
      }
    }
  }

  /** Each handled record comes from the item at its position, and only a `get` yields a result. */
  ghost predicate RoutedInOrder(items: seq<Value>, handled: seq<Handled>) {
    && |handled| <= |items|
    && (forall i :: 0 <= i < |handled| ==> Routes(items[i], handled[i]))
    && (forall i :: 0 <= i < |handled| && handled[i].result != VNone ==> handled[i].methodName == "get")
  }

  /** A record for the next item, from that item and with a result only for a `get`, keeps the records in order. */
  lemma {:induction false} RoutedStep(items: seq<Value>, handled: seq<Handled>, h: Handled)
    requires RoutedInOrder(items, handled) && |handled| < |items|
    requires Routes(items[|handled|], h) && (h.result != VNone ==> h.methodName == "get")
    ensures RoutedInOrder(items, handled + [h])
  {
    var more := handled + [h];
    forall i | 0 <= i < |more|
      ensures Routes(items[i], more[i]) && (more[i].result != VNone ==> more[i].methodName == "get")
    {
      if i < |handled| {
        assert more[i] == handled[i];
      }
    }
  }

  /**
   * The feedback of `_process_request_items`: every result that is not `None` is merged
   * into the dictionary under its method, keyed by its resource.
   */
  function FeedbackOf(handled: seq<Handled>): (r: map<string, Value>)
    ensures forall m :: m in r ==> r[m].VDict?
  {
    if handled == [] then map[]
    else
      var before := FeedbackOf(handled[..|handled| - 1]);
      var h := handled[|handled| - 1];
      if h.result == VNone then before
      else before[h.methodName := Merged(if h.methodName in before then Some(before[h.methodName]) else None, map[h.resource := h.result])]
  }

  /** The last result that is not `None` among the handled items with this method and resource. */
  function LastResult(handled: seq<Handled>, methodName: string, resource: string): Option<Value> {
    if handled == [] then None
    else
      var h := handled[|handled| - 1];
      if h.methodName == methodName && h.resource == resource && h.result != VNone then Some(h.result)
      else LastResult(handled[..|handled| - 1], methodName, resource)
  }

  /**
   * The feedback holds, under each method and resource, exactly the last result that was
   * not `None`: a later result replaces an earlier one and `None` results leave no trace.
   */
  lemma {:induction false} FeedbackOfLast(handled: seq<Handled>, methodName: string, resource: string)
    ensures LastResult(handled, methodName, resource).Some? <==>
      (methodName in FeedbackOf(handled) && resource in FeedbackOf(handled)[methodName].entries)
    ensures LastResult(handled, methodName, resource).Some? ==>
      FeedbackOf(handled)[methodName].entries[resource] == LastResult(handled, methodName, resource).value
  {
    if handled != [] {
      FeedbackOfLast(handled[..|handled| - 1], methodName, resource);
    }
  }

  /** A method appears in the feedback only when one of its handlers returned something. */
  lemma {:induction false} FeedbackOfMethods(handled: seq<Handled>, methodName: string)
    ensures methodName in FeedbackOf(handled) ==>
      exists i :: 0 <= i < |handled| && handled[i].methodName == methodName && handled[i].result != VNone
  {
    if handled != [] {
      var init := handled[..|handled| - 1];
      FeedbackOfMethods(init, methodName);
      if methodName in FeedbackOf(init) {
        var i :| 0 <= i < |init| && init[i].methodName == methodName && init[i].result != VNone;
        assert handled[i] == init[i];
      }
    }
  }

  // The response envelope
  // ~~~~~~~~~~~~~~~~~~~~~

  /**
   * The exceptions `_on_receive` reports back to the controller instead of letting through:
   * RuntimeError with its subclasses NotImplementedError and RecursionError, RuntimeWarning
   * and ValueError.
   */
  predicate Caught(e: Error) {
    e.kind in {RuntimeError, NotImplementedError, RecursionError, RuntimeWarning, ValueError}
  }

  /** The error text sent back: the exception's class name and message. */
  function Report(e: Error): string {
    ClassName(e.kind) + ": " + e.message
  }

  /**
   * The reply of `_on_receive` to the outcome of decoding and processing a request: the
   * feedback with no error; a caught exception's report with no feedback; any other
   * exception passes through.
   */
  function Reply(receivedTime: real, sentTime: real, processed: Result<map<string, Value>>): (r: Result<Value>)
    ensures r.Err? <==> processed.Err? && !Caught(processed.error)
    ensures r.Err? ==> r.error == processed.error
  {
    match processed
    case Ok(feedback) =>
      Ok(VDict(map["received_time" := VFloat(receivedTime), "error" := VNone,
                   "feedback" := VDict(feedback), "sent_time" := VFloat(sentTime)]))
    case Err(e) =>
      if Caught(e) then
        Ok(VDict(map["received_time" := VFloat(receivedTime), "error" := VStr(Report(e)),
                     "sent_time" := VFloat(sentTime)]))
      else Err(e)
  }

  /**
   * Every reply the worker sends decodes, on the controller's side, to a response with the
   * worker's timestamps, in which an error occurred exactly when processing raised; the
   * feedback arrives intact, and a failed request carries the report and no feedback.
   */
  lemma ReplyDecodes(receivedTime: real, sentTime: real, processed: Result<map<string, Value>>)
    requires Reply(receivedTime, sentTime, processed).Ok?
    ensures DecodeResponse(Reply(receivedTime, sentTime, processed).value).Ok?
    ensures var resp := DecodeResponse(Reply(receivedTime, sentTime, processed).value).value;
      && resp.receivedTime == receivedTime && resp.sentTime == sentTime
      && (ErrorOccurred(resp) <==> processed.Err?)
      && (processed.Ok? ==> resp.feedback == VDict(processed.value))
      && (processed.Err? ==> resp.feedback == VNone && resp.error == VStr(Report(processed.error)))
    ensures DecodeAsWritten(ResponseSchema, Reply(receivedTime, sentTime, processed).value)
         == Decode(ResponseSchema, Reply(receivedTime, sentTime, processed).value)
  {
    var m := Reply(receivedTime, sentTime, processed).value.entries;
    ResponseFieldsDecode(m);
    ResponseAsWrittenAgrees(m);
    var rec := Decode(ResponseSchema, VDict(m)).value;
    assert rec["received_time"] == m["received_time"] && rec["sent_time"] == m["sent_time"];
    assert rec["feedback"] == Lookup(m, "feedback") && rec["error"] == Lookup(m, "error");
  }

  /** With both timestamps present, the decoder as written builds the same response as the corrected one. */
  lemma ResponseAsWrittenAgrees(m: map<string, Value>)
    requires "received_time" in m && m["received_time"].VFloat? && "sent_time" in m && m["sent_time"].VFloat?
    ensures DecodeAsWritten(ResponseSchema, VDict(m)) == Decode(ResponseSchema, VDict(m))
  {
    ResponseSatisfied(m);
    NoValuedDefaultsReportNothing("Response", ResponseSchema.fields, m);
    assert !Misfit(ResponseSchema.fields[0], m) && !Misfit(ResponseSchema.fields[1], m);
  }

  /** A reply's mapping: both timestamps, and otherwise only the response's optional fields. */
  lemma ResponseFieldsDecode(m: map<string, Value>)
    requires m.Keys <= {"received_time", "sent_time", "feedback", "error"}
    requires "received_time" in m && m["received_time"].VFloat? && "sent_time" in m && m["sent_time"].VFloat?
    ensures Decode(ResponseSchema, VDict(m)).Ok?
    ensures Decode(ResponseSchema, VDict(m)).value.Keys == {"received_time", "sent_time", "feedback", "error"}
    ensures forall n :: n in m ==> Decode(ResponseSchema, VDict(m)).value[n] == m[n]
    ensures Decode(ResponseSchema, VDict(m)).value["feedback"] == Lookup(m, "feedback")
    ensures Decode(ResponseSchema, VDict(m)).value["error"] == Lookup(m, "error")
  {
    ResponseSatisfied(m);
    ResponseConstructs(m);
    assert Decode(ResponseSchema, VDict(m)) == Construct(ResponseSchema, m);
  }

  lemma ResponseSatisfied(m: map<string, Value>)
    requires "received_time" in m && m["received_time"].VFloat? && "sent_time" in m && m["sent_time"].VFloat?
    ensures Unsatisfied(ResponseSchema.fields, m) == []
  {
    var fields := ResponseSchema.fields;
    assert fields[1..] == [fields[1], fields[2], fields[3]];
    assert fields[1..][1..] == [fields[2], fields[3]];
    assert fields[1..][1..][1..] == [fields[3]];
    assert fields[1..][1..][1..][1..] == [];
    assert !Misfit(fields[0], m) && !Misfit(fields[1], m);
    assert Unsatisfied(fields[1..][1..][1..], m) == [];
    assert Unsatisfied(fields[1..][1..], m) == [];
    assert Unsatisfied(fields[1..], m) == [];
  }

  /** A map with both timestamps and no foreign key builds a `Response` with every field. */
  lemma ResponseConstructsOk(m: map<string, Value>)
    requires m.Keys <= {"received_time", "sent_time", "feedback", "error"}
    requires "received_time" in m && "sent_time" in m
    ensures Construct(ResponseSchema, m).Ok?
    ensures Construct(ResponseSchema, m).value.Keys == {"received_time", "sent_time", "feedback", "error"}
  {
    var fields := ResponseSchema.fields;
    ResponseFieldNames();
    assert m.Keys <= FieldNames(fields);
    forall i | 0 <= i < |fields| && fields[i].default.NoDefault? ensures fields[i].name in m {
      assert i == 0 || i == 1;
    }
  }

  /** The optional fields of that `Response` hold what the map gives them, `None` otherwise. */
  lemma ResponseDefaults(m: map<string, Value>)
    requires m.Keys <= {"received_time", "sent_time", "feedback", "error"}
    requires "received_time" in m && "sent_time" in m
    ensures Construct(ResponseSchema, m).Ok?
    ensures "feedback" in Construct(ResponseSchema, m).value && "error" in Construct(ResponseSchema, m).value
    ensures Construct(ResponseSchema, m).value["feedback"] == Lookup(m, "feedback")
    ensures Construct(ResponseSchema, m).value["error"] == Lookup(m, "error")
  {
    var fields := ResponseSchema.fields;
    ResponseConstructsOk(m);
    assert DefaultOf(fields[1..][1..], "feedback") == VNone;
    assert DefaultOf(fields[1..][1..][1..], "error") == VNone;
  }

  lemma ResponseConstructs(m: map<string, Value>)
    requires m.Keys <= {"received_time", "sent_time", "feedback", "error"}
    requires "received_time" in m && "sent_time" in m
    ensures Construct(ResponseSchema, m).Ok?
    ensures Construct(ResponseSchema, m).value.Keys == {"received_time", "sent_time", "feedback", "error"}
    ensures forall n :: n in m ==> Construct(ResponseSchema, m).value[n] == m[n]
    ensures Construct(ResponseSchema, m).value["feedback"] == Lookup(m, "feedback")
    ensures Construct(ResponseSchema, m).value["error"] == Lookup(m, "error")
  {
    ResponseConstructsOk(m);
    ResponseDefaults(m);
  }

  // Routine timing
  // ~~~~~~~~~~~~~~

  /** The routine's update flag: unset until the routine is first seen. */
  predicate Flag(flags: map<string, bool>, key: string) {
    key in flags && flags[key]
  }

  /** A routine runs when its phase in the interval is zero and it has not run since it was last non-zero. */
  predicate Fires(flag: bool, phase: int) {
    !flag && phase == 0
  }

  /** The flag after a pass: set while the phase is zero, cleared as soon as it is not. */
  function NextFlag(flag: bool, phase: int): (r: bool)
    ensures Fires(flag, phase) ==> r
    ensures phase != 0 ==> !r
    ensures phase == 0 && flag ==> r
  {
    if !flag && phase == 0 then true
    else if phase != 0 then false
    else flag
  }

  /** The flags after one pass over the routines in order, `phase` giving each routine's phase. */
  function TickFlags(flags: map<string, bool>, keys: seq<string>, phase: string -> int): map<string, bool> {
    if keys == [] then flags
    else
      var before := TickFlags(flags, keys[..|keys| - 1], phase);
      var k := keys[|keys| - 1];
      before[k := NextFlag(Flag(before, k), phase(k))]
  }

  /** The routines that run during that pass, in order. */
  function Fired(flags: map<string, bool>, keys: seq<string>, phase: string -> int): seq<string> {
    if keys == [] then []
    else
      var init := keys[..|keys| - 1];
      var k := keys[|keys| - 1];
      Fired(flags, init, phase) + (if Fires(Flag(TickFlags(flags, init, phase), k), phase(k)) then [k] else [])
  }

  /**
   * The calls that running the routines under `keys` in order makes on a platform with these
   * components; a routine whose call cannot be made (missing component or method, keyword
   * arguments that are not a mapping) adds none.
   */
  function Calls(components: ODict<string, Component>, routines: map<string, Routine>, keys: seq<string>): (r: seq<Invocation>)
    ensures |r| <= |keys|
    ensures forall c :: c in r ==> c.key in components.entries && c.operation in components.entries[c.key].kind.operations
  {
    if keys == [] then []
    else
      var before := Calls(components, routines, keys[..|keys| - 1]);
      var k := keys[|keys| - 1];
      if k !in routines then before
      else match CallOf(components, routines[k].executor, routines[k].operation, routines[k].kwargs)
        case Ok(c) => before + [c]
        case Err(_) => before
  }

  /** One more routine adds its call, when it can be made. */
  lemma CallsStep(components: ODict<string, Component>, routines: map<string, Routine>, keys: seq<string>, k: string)
    requires k in routines
    ensures var call := CallOf(components, routines[k].executor, routines[k].operation, routines[k].kwargs);
      Calls(components, routines, keys + [k]) == Calls(components, routines, keys) + (if call.Ok? then [call.value] else [])
  {
    assert (keys + [k])[..|keys|] == keys;
  }

  /** A pass over one more routine extends the flags and the runs of the pass before. */
  lemma TickStep(flags: map<string, bool>, keys: seq<string>, i: nat, phase: string -> int)
    requires i < |keys|
    ensures var before := TickFlags(flags, keys[..i], phase);
      TickFlags(flags, keys[..i + 1], phase) == before[keys[i] := NextFlag(Flag(before, keys[i]), phase(keys[i]))]
    ensures Fired(flags, keys[..i + 1], phase) == Fired(flags, keys[..i], phase) +
      (if Fires(Flag(TickFlags(flags, keys[..i], phase), keys[i]), phase(keys[i])) then [keys[i]] else [])
  {
    assert keys[..i + 1][..i] == keys[..i];
  }

  /** After a pass, each routine's flag says whether its phase was zero; the others keep theirs. */
  lemma {:induction false} TickFlagsAt(flags: map<string, bool>, keys: seq<string>, phase: string -> int, k: string)
    ensures k in keys ==> Flag(TickFlags(flags, keys, phase), k) == (phase(k) == 0)
    ensures k !in keys ==> Flag(TickFlags(flags, keys, phase), k) == Flag(flags, k)
  {
    if keys != [] {
      var init := keys[..|keys| - 1];
      assert keys == init + [keys[|keys| - 1]];
      TickFlagsAt(flags, init, phase, k);
    }
  }

  /** A routine runs in a pass exactly when its phase is zero and its flag was not set before the pass. */
  lemma {:induction false} FiredIff(flags: map<string, bool>, keys: seq<string>, phase: string -> int, k: string)
    requires Distinct(keys)
    ensures k in Fired(flags, keys, phase) <==> k in keys && phase(k) == 0 && !Flag(flags, k)
  {
    if keys != [] {
      var init := keys[..|keys| - 1];
      var last := keys[|keys| - 1];
      assert keys == init + [last];
      assert Distinct(init) by {
        forall i, j | 0 <= i < j < |init| ensures init[i] != init[j] {
          assert init[i] == keys[i] && init[j] == keys[j];
        }
      }
      assert last !in init by {
        forall i | 0 <= i < |init| ensures init[i] != last {
          assert init[i] == keys[i];
        }
      }
      FiredIff(flags, init, phase, k);
      TickFlagsAt(flags, init, phase, last);
    }
  }

  /**
   * The flag keeps a routine from running twice while its phase stays zero: it runs in a
   * pass only if its phase was non-zero in the pass before.
   */
  lemma RefireNeedsNonZero(flags: map<string, bool>, keys: seq<string>, phase1: string -> int, phase2: string -> int, k: string)
    requires Distinct(keys)
    requires k in Fired(TickFlags(flags, keys, phase1), keys, phase2)
    ensures phase1(k) != 0
  {
    FiredIff(TickFlags(flags, keys, phase1), keys, phase2, k);
    TickFlagsAt(flags, keys, phase1, k);
  }

  // The worker
  // ~~~~~~~~~~

  /** `Worker`: at most one platform, the routines in insertion order and the request handler. */
  class Worker {
    /** The registry `platform_types`: each platform label with its component types. */
    const platformTypes: map<string, ODict<string, ComponentType>>
    var platform: Platform?
    var routines: ODict<string, Routine>

    ghost predicate Valid()
      reads this, platform
    {
      && routines.Valid()
      && (forall t :: t in platformTypes ==> platformTypes[t].Valid())
      && (platform != null ==> platform.Valid())
    }

    constructor (types: map<string, ODict<string, ComponentType>>)
      requires forall t :: t in types ==> types[t].Valid()
      ensures Valid() && platformTypes == types
      ensures platform == null && routines.entries == map[]
    {
      platformTypes := types;
      platform := null;
      routines := Empty();
    }

    /** `add_platform`: a new, empty platform of a known type replaces the current one. */
    method AddPlatform(typeName: string) returns (r: Outcome)
      requires Valid()
      modifies this
      ensures Valid() && routines == old(routines)
      ensures typeName in platformTypes ==> (r.Done? && platform != null && fresh(platform)
        && platform.componentTypes == platformTypes[typeName]
        && platform.components.entries == map[] && platform.invoked == [])
      ensures typeName !in platformTypes ==> r == Raised(KeyErr(typeName)) && platform == old(platform)
    {
      if typeName !in platformTypes {
        return Raised(KeyErr(typeName));
      }
      platform := new Platform(platformTypes[typeName]);
      r := Done;
    }

    /** `remove_platform` */
    method RemovePlatform()
      requires Valid()
      modifies this
      ensures Valid() && platform == null && routines == old(routines)
    {
      platform := null;
    }

    /**
     * `add_routine`: the executor must be a component of the platform; the routine is then
     * stored under `key`, replacing one of the same name in place.
     */
    method AddRoutine(key: string, interval: Value, executor: string, operation: string, kwargs: Value)
      returns (r: Outcome)
      requires Valid()
      modifies this
      ensures Valid() && platform == old(platform)
      ensures platform == null ==> r == Raised(NotIterable("NoneType")) && routines == old(routines)
      ensures platform != null && executor !in platform.components.entries ==>
        r == Raised(ComponentNotFound(executor)) && routines == old(routines)
      ensures platform != null && executor in platform.components.entries ==>
        r.Done? && routines == Put(old(routines), key, Routine(executor, operation, kwargs, interval))
    {
      if platform == null {
        return Raised(NotIterable("NoneType"));
      }
      if executor !in platform.components.entries {
        return Raised(ComponentNotFound(executor));
      }
      routines := Put(routines, key, Routine(executor, operation, kwargs, interval));
      r := Done;
    }

    /** `remove_routine`: a missing key is ignored. */
    method RemoveRoutine(key: string)
      requires Valid()
      modifies this
      ensures Valid() && platform == old(platform)
      ensures routines == Remove(old(routines), key)
    {
      routines := Remove(routines, key);
    }

    /**
     * `add_component`: delegates to the platform with the setup as keyword arguments, which
     * must not repeat the platform method's own parameters.
     */
    method AddComponent(key: string, typeName: string, setup: Value) returns (r: Outcome)
      requires Valid()
      modifies platform
      ensures Valid()
      ensures platform == null ==> r == Raised(NoAttributeOn("NoneType", "add_component"))
      ensures platform != null && KeywordsOf(setup).Err? ==>
        r == Raised(KeywordsOf(setup).error) && unchanged(platform)
      ensures platform != null && KeywordsOf(setup).Ok? && !({"self", "key", "type"} !! KeywordsOf(setup).value.Keys) ==>
        r.Raised? && r.error.kind == TypeError && unchanged(platform)
      ensures platform != null && KeywordsOf(setup).Ok? && {"self", "key", "type"} !! KeywordsOf(setup).value.Keys ==>
        && (r.Done? <==> Constructible(platform.componentTypes, typeName, KeywordsOf(setup).value))
        && platform.components == (if r.Done?
             then Put(Remove(old(platform.components), key), key,
                      Component(typeName, platform.componentTypes.entries[typeName], KeywordsOf(setup).value))
             else Remove(old(platform.components), key))
      ensures platform != null ==>
        ComponentAdded(old(platform.components), platform.componentTypes, key, typeName, setup, platform.components, Returned(r))
    {
      if platform == null {
        return Raised(NoAttributeOn("NoneType", "add_component"));
      }
      var kw := KeywordsOf(setup);
      if kw.Err? {
        return Raised(kw.error);
      }
      if !({"self", "key", "type"} !! kw.value.Keys) {
        return Raised(Error(TypeError, "add_component() got multiple values for an argument"));
      }
      r := platform.AddComponent(key, typeName, kw.value);
    }

    /** `remove_component` */
    method RemoveComponent(key: string) returns (r: Outcome)
      requires Valid()
      modifies platform
      ensures Valid()
      ensures platform == null ==> r == Raised(NoAttributeOn("NoneType", "remove_component"))
      ensures platform != null ==> r.Done? && platform.components == Remove(old(platform.components), key)
    {
      if platform == null {
        return Raised(NoAttributeOn("NoneType", "remove_component"));
      }
      platform.RemoveComponent(key);
      r := Done;
    }

    /**
     * `execute_component`: the named component's method is called with the keyword
     * arguments; `perform` stands for what the device does and whether it raises.
     */
    method ExecuteComponent(key: string, operation: string, kwargs: Value, perform: Invocation -> Outcome)
      returns (r: Outcome)
      requires Valid()
      modifies platform
      ensures Valid()
      ensures platform == null ==> r == Raised(NotIterable("NoneType"))
      ensures platform != null && CallOf(old(platform.components), key, operation, kwargs).Err? ==>
        r == Raised(CallOf(old(platform.components), key, operation, kwargs).error) && unchanged(platform)
      ensures platform != null && CallOf(old(platform.components), key, operation, kwargs).Ok? ==>
        var call := CallOf(old(platform.components), key, operation, kwargs).value;
        && r == perform(call)
        && platform.invoked == old(platform.invoked) + [call]
        && platform.components == old(platform.components)
        && platform.cleaned == old(platform.cleaned)
    {
      if platform == null {
        return Raised(NotIterable("NoneType"));
      }
      var call := CallOf(platform.components, key, operation, kwargs);
      if call.Err? {
        return Raised(call.error);
      }
      platform.invoked := platform.invoked + [call.value];
      r := perform(call.value);
    }

    /** `get_observations` */
    method GetObservations(selected: Value, read: string -> Value) returns (r: Result<Value>)
      ensures Selection(selected).Err? ==> r == Err(Selection(selected).error)
      ensures Selection(selected).Ok? && platform == null ==>
        r == Err(NoAttributeOn("NoneType", if Selection(selected).value.None? then "keys" else "items"))
      ensures Selection(selected).Ok? && platform != null ==>
        r == Ok(VDict(Observed(platform.components.entries, Selection(selected).value, read)))
    {
      var selection := Selection(selected);
      if selection.Err? {
        return Err(selection.error);
      }
      if platform == null {
        return Err(NoAttributeOn("NoneType", if selection.value.None? then "keys" else "items"));
      }
      r := Ok(VDict(Observed(platform.components.entries, selection.value, read)));
    }

    /** `get_components`: the component keys in insertion order. */
    method GetComponents() returns (r: Result<Value>)
      ensures platform == null ==> r == Err(Error(TypeError, "'NoneType' object is not iterable"))
      ensures platform != null ==> r.Ok? && r.value.VList? && |r.value.items| == |platform.components.keys|
      ensures platform != null ==> forall i :: 0 <= i < |platform.components.keys| ==>
        r.value.items[i] == VStr(platform.components.keys[i])
    {
      if platform == null {
        return Err(Error(TypeError, "'NoneType' object is not iterable"));
      }
      r := Ok(VList(StrList(platform.components.keys)));
    }

    /** `get_routines`: the routine keys in insertion order. */
    method GetRoutines() returns (r: Result<Value>)
      ensures r.Ok? && r.value.VList? && |r.value.items| == |routines.keys|
      ensures forall i :: 0 <= i < |routines.keys| ==> r.value.items[i] == VStr(routines.keys[i])
    {
      r := Ok(VList(StrList(routines.keys)));
    }

    /** The platform's components, if a platform is set. */
    function Holding(): Option<ODict<string, Component>>
      reads this, platform
    {
      if platform == null then None else Some(platform.components)
    }

    /** What the `get` handler for `resource` returns on the worker as it stands. */
    function GetResult(resource: string, kwargs: map<string, Value>, read: string -> Value): Result<Value>
      reads this, platform
    {
      Got(Holding(), routines, resource, kwargs, read)
    }

    /**
     * Calls the handler of `method_handlers[method][resource]` with the keyword arguments.
     * Only the `get` handlers return a value, and they change nothing.
     */
    method Handle(methodName: string, resource: string, kwargs: map<string, Value>,
                  perform: Invocation -> Outcome, read: string -> Value)
      returns (r: Result<Value>)
      requires Valid()
      requires methodName in Resources && resource in Resources[methodName]
      modifies this, platform
      ensures Valid()
      ensures platform == old(platform) || platform == null || fresh(platform)
      ensures Bind(kwargs, Parameters(methodName, resource)).Raised? ==>
        r == Err(Bind(kwargs, Parameters(methodName, resource)).error)
      ensures r.Ok? && r.value != VNone ==> methodName == "get"
      ensures methodName == "get" || Bind(kwargs, Parameters(methodName, resource)).Raised? ==>
        unchanged(this) && (platform != null ==> unchanged(platform))
      ensures methodName == "get" && Bind(kwargs, Parameters(methodName, resource)).Done? ==>
        r == GetResult(resource, kwargs, read)
      ensures Changing(methodName, resource, kwargs) ==> Changed(methodName, resource, kwargs, perform, r)
    {
      var bound := Bind(kwargs, Parameters(methodName, resource));
      if bound.Raised? {
        return Err(bound.error);
      }
      if methodName == "get" {
        if resource == "observations" {
          r := GetObservations(Lookup(kwargs, "selected"), read);
        } else if resource == "components" {
          r := GetComponents();
          if platform != null {
            assert r.value.items == StrList(platform.components.keys);
          }
        } else {
          r := GetRoutines();
          assert r.value.items == StrList(routines.keys);
        }
        return;
      }
      r := Change(methodName, resource, kwargs, perform);
    }

    /** The handlers other than `get`, for the arguments their signatures accept. */
    predicate Changing(methodName: string, resource: string, kwargs: map<string, Value>) {
      && methodName in Resources && methodName != "get" && resource in Resources[methodName]
      && Bind(kwargs, Parameters(methodName, resource)).Done?
    }

    /** Neither the platform nor the routines changed. */
    twostate predicate Kept()
      reads this, platform
    {
      platform == old(platform) && routines == old(routines) && (platform != null ==> unchanged(platform))
    }

    /**
     * What the handler `method_handlers[methodName][resource]` does to the worker and returns,
     * from the per-handler contracts above: a key, type, executor or method name that is not
     * a string raises TypeError before anything changes.
     */
    twostate predicate Changed(methodName: string, resource: string, kwargs: map<string, Value>,
                               perform: Invocation -> Outcome, new r: Result<Value>)
      requires old(Valid()) && Changing(methodName, resource, kwargs)
      reads this, platform
    {
      if methodName == "add" && resource == "platform" then
        match StrArg(kwargs["type"])
        case Err(e) => r == Err(e) && Kept()
        case Ok(t) =>
          if t in platformTypes then
            && r == Ok(VNone) && routines == old(routines)
            && platform != null && fresh(platform) && platform.componentTypes == platformTypes[t]
            && platform.components.entries == map[] && platform.invoked == []
          else r == Err(KeyErr(t)) && Kept()
      else if methodName == "remove" && resource == "platform" then
        r == Ok(VNone) && platform == null && routines == old(routines)
      else if methodName == "add" && resource == "routine" then
        var key, executor, operation := StrArg(kwargs["key"]), StrArg(kwargs["executor"]), StrArg(kwargs["operation"]);
        if key.Err? || executor.Err? || operation.Err? then r == Err(Error(TypeError, "expected a str")) && Kept()
        else
          && platform == old(platform) && (platform != null ==> unchanged(platform))
          && if platform == null then r == Err(NotIterable("NoneType")) && routines == old(routines)
             else if executor.value !in platform.components.entries then
               r == Err(ComponentNotFound(executor.value)) && routines == old(routines)
             else
               && r == Ok(VNone)
               && routines == Put(old(routines), key.value,
                                  Routine(executor.value, operation.value, kwargs["kwargs"], kwargs["interval"]))
      else if methodName == "remove" && resource == "routine" then
        match StrArg(kwargs["key"])
        case Err(e) => r == Err(e) && Kept()
        case Ok(key) =>
          && r == Ok(VNone) && routines == Remove(old(routines), key)
          && platform == old(platform) && (platform != null ==> unchanged(platform))
      else if methodName == "add" then
        var key, t := StrArg(kwargs["key"]), StrArg(kwargs["type"]);
        if key.Err? || t.Err? then r == Err(Error(TypeError, "expected a str")) && Kept()
        else
          && routines == old(routines) && platform == old(platform)
          && (platform == null ==> r == Err(NoAttributeOn("NoneType", "add_component")))
          && (platform != null ==> ComponentAdded(old(platform.components), platform.componentTypes, key.value, t.value,
                                                  Lookup(kwargs, "setup"), platform.components, r))
      else if methodName == "remove" then
        match StrArg(kwargs["key"])
        case Err(e) => r == Err(e) && Kept()
        case Ok(key) =>
          && routines == old(routines) && platform == old(platform)
          && (platform == null ==> r == Err(NoAttributeOn("NoneType", "remove_component")))
          && (platform != null ==> r == Ok(VNone) && platform.components == Remove(old(platform.components), key))
      else
        var key, operation := StrArg(kwargs["key"]), StrArg(kwargs["operation"]);
        if key.Err? || operation.Err? then r == Err(Error(TypeError, "expected a str")) && Kept()
        else
          && routines == old(routines) && platform == old(platform)
          && (platform == null ==> r == Err(NotIterable("NoneType")))
          && (platform != null ==>
                match CallOf(old(platform.components), key.value, operation.value, Lookup(kwargs, "kwargs"))
                case Err(e) => r == Err(e) && unchanged(platform)
                case Ok(call) =>
                  && r == Returned(perform(call))
                  && platform.invoked == old(platform.invoked) + [call]
                  && platform.components == old(platform.components))
    }

    /** The handlers other than `get`: they change the worker and return nothing. */
    method Change(methodName: string, resource: string, kwargs: map<string, Value>, perform: Invocation -> Outcome)
      returns (r: Result<Value>)
      requires Valid()
      requires Changing(methodName, resource, kwargs)
      modifies this, platform
      ensures Valid()
      ensures platform == old(platform) || platform == null || fresh(platform)
      ensures r.Ok? ==> r.value == VNone
      ensures Changed(methodName, resource, kwargs, perform, r)
    {
      var o: Outcome;
      if methodName == "add" && resource == "platform" {
        var t := StrArg(kwargs["type"]);
        if t.Err? {
          return Err(t.error);
        }
        o := AddPlatform(t.value);
      } else if methodName == "remove" && resource == "platform" {
        RemovePlatform();
        o := Done;
      } else if methodName == "add" && resource == "routine" {
        var key, executor, operation := StrArg(kwargs["key"]), StrArg(kwargs["executor"]), StrArg(kwargs["operation"]);
        if key.Err? || executor.Err? || operation.Err? {
          return Err(Error(TypeError, "expected a str"));
        }
        o := AddRoutine(key.value, kwargs["interval"], executor.value, operation.value, kwargs["kwargs"]);
      } else if methodName == "remove" && resource == "routine" {
        var key := StrArg(kwargs["key"]);
        if key.Err? {
          return Err(key.error);
        }
        RemoveRoutine(key.value);
        o := Done;
      } else if methodName == "add" {
        var key, t := StrArg(kwargs["key"]), StrArg(kwargs["type"]);
        if key.Err? || t.Err? {
          return Err(Error(TypeError, "expected a str"));
        }
        o := AddComponent(key.value, t.value, Lookup(kwargs, "setup"));
      } else if methodName == "remove" {
        var key := StrArg(kwargs["key"]);
        if key.Err? {
          return Err(key.error);
        }
        o := RemoveComponent(key.value);
      } else {
        var key, operation := StrArg(kwargs["key"]), StrArg(kwargs["operation"]);
        if key.Err? || operation.Err? {
          return Err(Error(TypeError, "expected a str"));
        }
        o := ExecuteComponent(key.value, operation.value, Lookup(kwargs, "kwargs"), perform);
      }
      r := Returned(o);
    }

    /**
     * What handling one item does to the worker: an item that routes to a handler other
     * than `get`, with arguments its signature accepts, has that handler's effect; any
     * other item changes nothing.
     */
    twostate predicate ItemEffect(item: Value, perform: Invocation -> Outcome, new r: Result<Value>)
      requires old(Valid())
      reads this, platform
    {
      var route := Route(item);
      if route.Ok? && Changing(route.value.0, route.value.1, route.value.2)
      then Changed(route.value.0, route.value.1, route.value.2, perform, r)
      else Kept()
    }

    /** One item of `_process_request_items`: route it, then call its handler. */
    method HandleItem(item: Value, perform: Invocation -> Outcome, read: string -> Value) returns (r: Result<Handled>)
      requires Valid()
      modifies this, platform
      ensures Valid()
      ensures platform == old(platform) || platform == null || fresh(platform)
      ensures Route(item).Err? ==> r == Err(Route(item).error)
      ensures r.Ok? ==> Routes(item, r.value)
      ensures r.Ok? && r.value.result != VNone ==> r.value.methodName == "get"
      ensures ItemEffect(item, perform, Answer(r))
      ensures Getting(item) ==> Answer(r) == GetResult(Route(item).value.1, Route(item).value.2, read)
    {
      var route := Route(item);
      if route.Err? {
        return Err(route.error);
      }
      var (methodName, resource, kwargs) := route.value;
      var result := Handle(methodName, resource, kwargs, perform, read);
      if result.Err? {
        return Err(result.error);
      }
      r := Ok(Handled(methodName, resource, result.value));
    }

    /** One item of `_process_request_items`: handle it and merge a result that is not `None`. */
    method ProcessItem(item: Value, response: NestedDict, ghost handled: seq<Handled>,
                       perform: Invocation -> Outcome, read: string -> Value)
      returns (h: Result<Handled>)
      requires Valid() && response.Valid() && response.entries.entries == FeedbackOf(handled)
      modifies this, platform, response
      ensures Valid() && response.Valid()
      ensures platform == old(platform) || platform == null || fresh(platform)
      ensures h.Ok? ==> Routes(item, h.value) && (h.value.result != VNone ==> h.value.methodName == "get")
      ensures h.Ok? ==> response.entries.entries == FeedbackOf(handled + [h.value])
      ensures ItemEffect(item, perform, Answer(h))
      ensures Getting(item) ==> Answer(h) == GetResult(Route(item).value.1, Route(item).value.2, read)
      ensures Getting(item) ==> Holding() == old(Holding()) && routines == old(routines)
      ensures Getting(item) && h.Ok? ==> Answers(item, h.value, old(Holding()), old(routines), read)
    {
      h := HandleItem(item, perform, read);
      if h.Err? {
        return;
      }
      if h.value.result != VNone {
        var _ := response.InnerMerge(h.value.methodName, map[h.value.resource := h.value.result]);
      }
      assert (handled + [h.value])[..|handled|] == handled;
    }

    /**
     * `_process_request_items`: handles the items in order and merges each result that is
     * not `None` into the feedback under its method. The first exception ends the
     * processing; the items before it have had their effect.
     */
    method ProcessRequestItems(items: seq<Value>, perform: Invocation -> Outcome, read: string -> Value)
      returns (r: Result<map<string, Value>>, handled: seq<Handled>)
      requires Valid()
      modifies this, platform
      ensures Valid()
      ensures |handled| <= |items|
      ensures forall i :: 0 <= i < |handled| ==> Routes(items[i], handled[i])
      ensures forall i :: 0 <= i < |handled| && handled[i].result != VNone ==> handled[i].methodName == "get"
      ensures r.Ok? <==> |handled| == |items|
      ensures r.Ok? ==> r.value == FeedbackOf(handled)
      ensures GetsOnly(items, |items|) ==> Holding() == old(Holding()) && routines == old(routines)
      ensures GotInOrder(items, handled, old(Holding()), old(routines), read)
    {
      ghost var holding, held := Holding(), routines;
      var response := new NestedDict();
      handled := [];
      var i := 0;
      while i < |items|
        invariant 0 <= i <= |items| && |handled| == i
        invariant Valid() && response.Valid()
        invariant platform == old(platform) || platform == null || fresh(platform)
        invariant response.entries.entries == FeedbackOf(handled)
        invariant RoutedInOrder(items, handled)
        invariant GetsOnly(items, i) ==> Holding() == holding && routines == held
        invariant GotInOrder(items, handled, holding, held, read)
      {
        var h := ProcessItem(items[i], response, handled, perform, read);
        if h.Err? {
          if GetsOnly(items, |items|) {
            GetsOnlyPrefix(items, i + 1, |items|);
          }
          return Err(h.error), handled;
        }
        GotStep(items, handled, h.value, holding, held, read);
        RoutedStep(items, handled, h.value);
        handled := handled + [h.value];
        i := i + 1;
      }
      r := Ok(response.entries.entries);
    }

    /**
     * `_on_receive`: decode the request, process its items and reply. `processed` is what
     * decoding and processing came to; the reply is built from it (see `Reply`).
     */
    method OnReceive(received: Value, receivedTime: real, sentTime: real,
                     perform: Invocation -> Outcome, read: string -> Value)
      returns (r: Result<Value>, processed: Result<map<string, Value>>, handled: seq<Handled>)
      requires Valid()
      modifies this, platform
      ensures Valid()
      ensures r == Reply(receivedTime, sentTime, processed)
      ensures DecodeRequest(received).Err? ==> processed == Err(DecodeRequest(received).error) && handled == []
      ensures DecodeRequest(received).Ok? ==>
        var items := DecodeRequest(received).value.items;
        && |handled| <= |items|
        && (processed.Ok? <==> |handled| == |items|)
        && (processed.Ok? ==> processed.value == FeedbackOf(handled))
        && (forall i :: 0 <= i < |handled| ==> Routes(items[i], handled[i]))
        && GotInOrder(items, handled, old(Holding()), old(routines), read)
    {
      var request := DecodeRequest(received);
      if request.Err? {
        processed, handled := Err(request.error), [];
      } else {
        processed, handled := ProcessRequestItems(request.value.items, perform, read);
      }
      r := Reply(receivedTime, sentTime, processed);
    }

    /**
     * A pass over the first `i` routines has left the flags at `next` and made their calls
     * after the `start` the platform had invoked before the pass.
     */
    ghost predicate Progress(flags: map<string, bool>, keys: seq<string>, i: nat, phase: string -> int,
                             next: map<string, bool>, start: seq<Invocation>)
      reads this, platform
    {
      && i <= |keys|
      && next == TickFlags(flags, keys[..i], phase)
      && (platform != null ==> platform.invoked == start + Calls(platform.components, routines.entries, Fired(flags, keys[..i], phase)))
      && (platform != null ==> |platform.invoked| == |start| + |Fired(flags, keys[..i], phase)|)
      && (platform == null ==> Fired(flags, keys[..i], phase) == [])
    }

    /**
     * An exception from the `j`-th routine ended the pass: that routine was due, and the
     * platform has made the calls of the routines run up to and including it.
     */
    ghost predicate Stopped(flags: map<string, bool>, keys: seq<string>, j: nat, phase: string -> int, start: seq<Invocation>)
      requires j < |keys|
      reads this, platform
    {
      && keys[j] in Fired(flags, keys[..j + 1], phase)
      && (platform != null ==> platform.invoked == start + Calls(platform.components, routines.entries, Fired(flags, keys[..j + 1], phase)))
    }

    /** The `i`-th routine of a pass: run it if its flag allows, then update its flag. */
    method RunRoutine(flags: map<string, bool>, keys: seq<string>, i: nat, phase: string -> int,
                      perform: Invocation -> Outcome, next: map<string, bool>, ghost start: seq<Invocation>)
      returns (after: map<string, bool>, r: Outcome)
      requires Valid() && keys == routines.keys && i < |keys|
      requires Progress(flags, keys, i, phase, next, start)
      modifies platform
      ensures Valid()
      ensures platform != null ==> platform.components == old(platform.components)
      ensures r.Done? ==> Progress(flags, keys, i + 1, phase, after, start)
      ensures r.Raised? ==> Stopped(flags, keys, i, phase, start)
    {
      var key := keys[i];
      assert key in routines.entries;
      var routine := routines.entries[key];
      TickStep(flags, keys, i, phase);
      var flag := Flag(next, key);
      after := next[key := NextFlag(flag, phase(key))];
      r := Done;
      if !flag && phase(key) == 0 {
        ghost var fired := Fired(flags, keys[..i], phase);
        assert Fired(flags, keys[..i + 1], phase) == fired + [key];
        if platform != null {
          CallsStep(platform.components, routines.entries, fired, key);
        }
        r := ExecuteComponent(routine.executor, routine.operation, routine.kwargs, perform);
        if platform != null {
          ghost var call := CallOf(platform.components, routine.executor, routine.operation, routine.kwargs);
          assert platform.invoked == old(platform.invoked) + (if call.Ok? then [call.value] else []);
        }
      } else {
        assert Fired(flags, keys[..i + 1], phase) == Fired(flags, keys[..i], phase);
      }
    }

    /**
     * One pass of `_run_routines` over the routines in order: a routine whose flag is not
     * set runs when its phase is zero, and its flag then follows the phase. `phase` stands
     * for the rounded time modulo each routine's interval. An exception ends the pass (and,
     * in the source, the routine thread).
     */
    method RunRoutinesPass(flags: map<string, bool>, phase: string -> int, perform: Invocation -> Outcome)
      returns (next: map<string, bool>, r: Outcome)
      requires Valid()
      modifies platform
      ensures Valid()
      ensures r.Done? ==> next == TickFlags(flags, routines.keys, phase)
      ensures platform != null ==> platform.components == old(platform.components)
      ensures r.Done? && platform != null ==>
        platform.invoked == old(platform.invoked) + Calls(platform.components, routines.entries, Fired(flags, routines.keys, phase))
      ensures r.Done? && platform != null ==>
        |platform.invoked| == |old(platform.invoked)| + |Fired(flags, routines.keys, phase)|
      ensures r.Done? && platform == null ==> Fired(flags, routines.keys, phase) == []
      ensures r.Raised? && platform != null ==>
        exists j :: 0 <= j < |routines.keys| && Stopped(flags, routines.keys, j, phase, old(platform.invoked))
      ensures r.Raised? && platform == null ==> exists j :: 0 <= j < |routines.keys| && Stopped(flags, routines.keys, j, phase, [])
    {
      next := flags;
      var keys := routines.keys;
      ghost var start := if platform != null then platform.invoked else [];
      var i := 0;
      while i < |keys|
        invariant keys == routines.keys && Valid()
        invariant platform != null ==> platform.components == old(platform.components)
        invariant Progress(flags, keys, i, phase, next, start)
      {
        next, r := RunRoutine(flags, keys, i, phase, perform, next, start);
        if r.Raised? {
          return;
        }
        i := i + 1;
      }
      assert keys[..i] == keys;
      r := Done;
    }
  }
}
