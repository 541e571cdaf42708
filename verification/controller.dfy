/**
 * The controller side of mindstone/controller.py: observer middleware with its table of
 * observables, a controller that buffers request items and sends them through a client,
 * and the ensemble that shares client and middleware objects among its controllers.
 */
module Controller {
  import opened Common
  import opened OrderedDict
  import opened Utils
  import opened Connection
  import opened Worker

  /** A client of the worker: its target and the exchange of one request for one reply. */
  class Client {
    const hostname: string
    const port: int
    /** `send_and_receive` with the encoding on both sides: the decoded reply to a decoded request. */
    const exchange: Value -> Value

    constructor (hostname: string, port: int, exchange: Value -> Value)
      ensures this.hostname == hostname && this.port == port && this.exchange == exchange
    {
      this.hostname := hostname;
      this.port := port;
      this.exchange := exchange;
    }
  }

  // Observer middleware
  // ~~~~~~~~~~~~~~~~~~~

  /** An observable: the `"component.field"` path into the observations and the transformer applied. */
  datatype Observable = Observable(path: string, transformer: Value -> Value)

  /** One call of `handle_observation(tag, parameter, value)`. */
  datatype Observation = Observation(tag: string, parameter: string, value: Value)

  /** The observation an observable reports: its transformed value when its path leads to one. */
  function Reported(table: map<(string, string), Observable>, observations: Value, k: (string, string)): (r: Option<Observation>)
    requires k in table
    ensures r.Some? <==> GetNested(table[k].path, observations).Ok? && GetNested(table[k].path, observations).value != VNone
    ensures r.Some? ==> r.value == Observation(k.0, k.1, table[k].transformer(GetNested(table[k].path, observations).value))
  {
    match GetNested(table[k].path, observations)
    case Ok(v) => if v == VNone then None else Some(Observation(k.0, k.1, table[k].transformer(v)))
    case Err(_) => None
  }

  /**
   * What `handle` does over the observables in order: the observations it reports, and
   * the exception of the first path lookup that raises, which ends the walk.
   */
  function ObserveAll(keys: seq<(string, string)>, table: map<(string, string), Observable>, observations: Value)
    : (r: (seq<Observation>, Outcome))
    requires forall k :: k in keys ==> k in table
  {
    if keys == [] then ([], Done)
    else
      var before := ObserveAll(keys[..|keys| - 1], table, observations);
      var k := keys[|keys| - 1];
      if before.1.Raised? then before
      else match GetNested(table[k].path, observations)
        case Err(e) => (before.0, Raised(e))
        case Ok(v) => (before.0 + (if v == VNone then [] else [Observation(k.0, k.1, table[k].transformer(v))]), Done)
  }

  /**
   * When no lookup raises, `handle` reports exactly the observables whose path leads to a
   * value that is not `None`, each with its transformed value.
   */
  lemma {:induction false} ObserveAllExact(keys: seq<(string, string)>, table: map<(string, string), Observable>, observations: Value)
    requires forall k :: k in keys ==> k in table
    requires ObserveAll(keys, table, observations).1.Done?
    ensures forall x :: x in ObserveAll(keys, table, observations).0 <==>
      exists k :: k in keys && Reported(table, observations, k) == Some(x)
  {
    if keys != [] {
      var init := keys[..|keys| - 1];
      var last := keys[|keys| - 1];
      assert keys == init + [last];
      ObserveAllExact(init, table, observations);
      forall x ensures x in ObserveAll(keys, table, observations).0 <==>
        exists k :: k in keys && Reported(table, observations, k) == Some(x)
      {
        if x in ObserveAll(keys, table, observations).0 && x !in ObserveAll(init, table, observations).0 {
          assert Reported(table, observations, last) == Some(x);
        }
        if exists k :: k in keys && Reported(table, observations, k) == Some(x) {
          var k :| k in keys && Reported(table, observations, k) == Some(x);
          if k != last {
            assert k in init;
          }
        }
      }
    }
  }

  /** Without observations in the response, nothing is reported; a `None` observation map has no values to find. */
  lemma {:induction false} ObserveNothing(keys: seq<(string, string)>, table: map<(string, string), Observable>)
    requires forall k :: k in keys ==> k in table
    ensures ObserveAll(keys, table, VNone) == ([], Done)
  {
    if keys != [] {
      ObserveNothing(keys[..|keys| - 1], table);
      var k := keys[|keys| - 1];
      assert GetNested(table[k].path, VNone) == Ok(VNone);
      var none: seq<Observation> := [];
      assert none + none == none;
    }
  }

  /** `ObserverMiddlewareABC`: observables keyed by `(tag, parameter)`, and the observations handled so far. */
  class ObserverMiddleware {
    var observables: ODict<(string, string), Observable>
    /** The calls of `handle_observation`, in order. */
    var observed: seq<Observation>

    ghost predicate Valid()
      reads this
    {
      observables.Valid()
    }

    constructor ()
      ensures Valid() && observables.entries == map[] && observed == []
    {
      observables := Empty();
      observed := [];
    }

    /** `add_observable`: the entry for `(tag, parameter)` is set, replacing any earlier one. */
    method AddObservable(tag: string, parameter: string, component: string, field: string, transformer: Value -> Value)
      requires Valid()
      modifies this
      ensures Valid() && observed == old(observed)
      ensures observables == Put(old(observables), (tag, parameter), Observable(component + "." + field, transformer))
    {
      observables := Put(observables, (tag, parameter), Observable(component + "." + field, transformer));
    }

    /** `remove_observable`: an absent entry is ignored. */
    method RemoveObservable(tag: string, parameter: string)
      requires Valid()
      modifies this
      ensures Valid() && observed == old(observed)
      ensures observables == Remove(old(observables), (tag, parameter))
    {
      observables := Remove(observables, (tag, parameter));
    }

    /** One observable of `handle`: look its path up and report the value unless it is `None`. */
    method ObserveOne(keys: seq<(string, string)>, i: nat, observations: Value, ghost base: seq<Observation>) returns (r: Outcome)
      requires Valid() && keys == observables.keys && i < |keys|
      requires ObserveAll(keys[..i], observables.entries, observations).1.Done?
      requires observed == base + ObserveAll(keys[..i], observables.entries, observations).0
      modifies this
      ensures Valid() && observables == old(observables)
      ensures observed == base + ObserveAll(keys[..i + 1], observables.entries, observations).0
      ensures r == ObserveAll(keys[..i + 1], observables.entries, observations).1
    {
      ObserveAllStep(keys, i, observables.entries, observations);
      var observable := observables.entries[keys[i]];
      var value := GetNested(observable.path, observations);
      if value.Err? {
        return Raised(value.error);
      }
      if value.value != VNone {
        observed := observed + [Observation(keys[i].0, keys[i].1, observable.transformer(value.value))];
      }
      r := Done;
    }

    /**
     * `handle`: with observations in the response, each observable in order looks its
     * path up and reports a value that is not `None`; a lookup that raises ends it.
     */
    method Handle(response: Response) returns (r: Outcome)
      requires Valid()
      modifies this
      ensures Valid() && observables == old(observables)
      ensures observed == old(observed) + Walk(observables, response).0 && r == Walk(observables, response).1
    {
      var observations := Observations(response);
      if observations == VNone {
        return Done;
      }
      var keys := observables.keys;
      var i := 0;
      while i < |keys|
        invariant 0 <= i <= |keys| && keys == observables.keys && observables == old(observables)
        invariant ObserveAll(keys[..i], observables.entries, observations).1.Done?
        invariant observed == old(observed) + ObserveAll(keys[..i], observables.entries, observations).0
      {
        var step := ObserveOne(keys, i, observations, old(observed));
        if step.Raised? {
          ObservedPrefixStops(keys, i + 1, observables.entries, observations);
          return step;
        }
        i := i + 1;
      }
      assert keys[..i] == keys;
      r := Done;
    }
  }

  /** The walk over one more observable, after a prefix that did not raise. */
  lemma ObserveAllStep(keys: seq<(string, string)>, i: nat, table: map<(string, string), Observable>, observations: Value)
    requires i < |keys| && forall k :: k in keys ==> k in table
    requires ObserveAll(keys[..i], table, observations).1.Done?
    ensures var k := keys[i];
      var v := GetNested(table[k].path, observations);
      var before := ObserveAll(keys[..i], table, observations).0;
      ObserveAll(keys[..i + 1], table, observations)
        == if v.Err? then (before, Raised(v.error))
           else (before + (if v.value == VNone then [] else [Observation(k.0, k.1, table[k].transformer(v.value))]), Done)
  {
    assert keys[..i + 1][..i] == keys[..i];
  }

  /** Once a walk over a prefix raises, the walk over the whole sequence ends the same way. */
  lemma {:induction false} ObservedPrefixStops(keys: seq<(string, string)>, n: nat, table: map<(string, string), Observable>, observations: Value)
    requires n <= |keys| && forall k :: k in keys ==> k in table
    requires ObserveAll(keys[..n], table, observations).1.Raised?
    ensures ObserveAll(keys, table, observations) == ObserveAll(keys[..n], table, observations)
    decreases |keys| - n
  {
    if n < |keys| {
      assert keys[..n + 1][..n] == keys[..n];
      ObservedPrefixStops(keys, n + 1, table, observations);
    } else {
      assert keys[..n] == keys;
    }
  }

  /** How many of `labels` name the middleware object `m` (one object may sit under several labels). */
  function LabelCount(labels: seq<string>, table: map<string, ObserverMiddleware>, m: ObserverMiddleware): (n: nat)
    requires forall l :: l in labels ==> l in table
    ensures n <= |labels|
  {
    if labels == [] then 0
    else LabelCount(labels[..|labels| - 1], table, m) + (if table[labels[|labels| - 1]] == m then 1 else 0)
  }

  /**
   * What one call of `handle` with these observables does with `response`: no reports
   * without observations, otherwise the walk over the observables in order.
   */
  function Walk(observables: ODict<(string, string), Observable>, response: Response): (seq<Observation>, Outcome)
    requires observables.Valid()
  {
    if Observations(response) == VNone then ([], Done)
    else ObserveAll(observables.keys, observables.entries, Observations(response))
  }

  /** What a middleware object holds at one moment: its observables and its reports. */
  datatype Snapshot = Snapshot(observables: ODict<(string, string), Observable>, observed: seq<Observation>)

  /** The observables and reports each of `objects` holds now. */
  ghost function SnapshotsOf(objects: set<ObserverMiddleware>): (s: map<ObserverMiddleware, Snapshot>)
    reads objects
    ensures s.Keys == objects
    ensures forall m :: m in s ==> s[m] == Snapshot(m.observables, m.observed)
  {
    map m | m in objects :: Snapshot(m.observables, m.observed)
  }

  /** The middleware object `m`, one of `objects`, handles the response; the others keep what they hold. */
  method HandleAmong(ghost objects: set<ObserverMiddleware>, m: ObserverMiddleware, response: Response) returns (outcome: Outcome)
    requires m in objects && m.Valid()
    modifies m
    ensures m.observables == old(m.observables) && outcome == Walk(m.observables, response).1
    ensures SnapshotsOf(objects) == old(SnapshotsOf(objects))[m := Snapshot(m.observables, old(m.observed) + Walk(m.observables, response).0)]
  {
    ghost var before := SnapshotsOf(objects);
    outcome := m.Handle(response);
    ghost var after := SnapshotsOf(objects);
    assert forall o :: o in before && o != m ==> after[o] == before[o];
    assert after == before[m := after[m]];
  }

  /**
   * A middleware object that held `from` and has since handled the response `times`
   * times holds `s`: the same observables, and its walk's reports `times` times over
   * after the reports it had.
   */
  ghost predicate HandledTimes(s: Snapshot, from: Snapshot, times: nat, response: Response)
  {
    && s.observables == from.observables
    && s.observables.Valid()
    && s.observed == from.observed + Repeat(Walk(s.observables, response).0, times)
  }

  /** One more call of `handle` adds one more walk's reports. */
  lemma HandledOnceMore(s: Snapshot, from: Snapshot, times: nat, response: Response)
    requires HandledTimes(s, from, times, response)
    ensures HandledTimes(Snapshot(s.observables, s.observed + Walk(s.observables, response).0), from, times + 1, response)
  {
    RepeatMore(Walk(s.observables, response).0, times);
  }

  /**
   * Every middleware object in `now` has handled the response once per label of
   * `handledBy` it sits under in `table`, counted from what it held in `start`.
   */
  ghost predicate HandledSince(now: map<ObserverMiddleware, Snapshot>, start: map<ObserverMiddleware, Snapshot>,
                               handledBy: seq<string>, table: map<string, ObserverMiddleware>, response: Response)
    requires forall l :: l in handledBy ==> l in table
  {
    forall m :: m in now ==> m in start && HandledTimes(now[m], start[m], LabelCount(handledBy, table, m), response)
  }

  /** The object under one more label handles the response: it alone gains its walk's reports. */
  lemma HandledStep(now: map<ObserverMiddleware, Snapshot>, start: map<ObserverMiddleware, Snapshot>,
                    handledBy: seq<string>, table: map<string, ObserverMiddleware>, l: string, response: Response)
    requires (forall x :: x in handledBy ==> x in table) && l in table && table[l] in now
    requires HandledSince(now, start, handledBy, table, response)
    ensures var s := now[table[l]];
      HandledSince(now[table[l] := Snapshot(s.observables, s.observed + Walk(s.observables, response).0)],
                   start, handledBy + [l], table, response)
  {
    var m := table[l];
    var s := now[m];
    var after := now[m := Snapshot(s.observables, s.observed + Walk(s.observables, response).0)];
    forall m' | m' in after
      ensures m' in start && HandledTimes(after[m'], start[m'], LabelCount(handledBy + [l], table, m'), response)
    {
      LabelCountMore(handledBy, l, table, m');
      if m' == m {
        HandledOnceMore(s, start[m], LabelCount(handledBy, table, m), response);
      } else {
        assert after[m'] == now[m'];
      }
    }
  }

  /** An object is counted exactly when some label names it. */
  lemma {:induction false} LabelCountZero(labels: seq<string>, table: map<string, ObserverMiddleware>, m: ObserverMiddleware)
    requires forall l :: l in labels ==> l in table
    ensures LabelCount(labels, table, m) == 0 <==> forall l :: l in labels ==> table[l] != m
  {
    if labels != [] {
      var init := labels[..|labels| - 1];
      assert labels == init + [labels[|labels| - 1]];
      LabelCountZero(init, table, m);
    }
  }

  /**
   * The walks of the objects under `labels` in `table`, with the observables they held in
   * `start`: every walk but the last ended without raising, and the last ended with `r`.
   */
  ghost predicate WalkOutcomes(start: map<ObserverMiddleware, Snapshot>, table: map<string, ObserverMiddleware>,
                               labels: seq<string>, response: Response, r: Outcome)
  {
    && (forall l :: l in labels ==> l in table && table[l] in start && start[table[l]].observables.Valid())
    && (forall j :: 0 <= j < |labels| - 1 ==> Walk(start[table[labels[j]]].observables, response).1.Done?)
    && (labels != [] ==> Walk(start[table[labels[|labels| - 1]]].observables, response).1 == r)
  }

  /** One more label whose walk ends with `r`, after walks that all ended without raising. */
  lemma WalkOutcomesStep(start: map<ObserverMiddleware, Snapshot>, table: map<string, ObserverMiddleware>,
                         labels: seq<string>, l: string, response: Response)
    requires WalkOutcomes(start, table, labels, response, Done)
    requires l in table && table[l] in start && start[table[l]].observables.Valid()
    ensures WalkOutcomes(start, table, labels + [l], response, Walk(start[table[l]].observables, response).1)
  {
    var more := labels + [l];
    forall j | 0 <= j < |more| - 1
      ensures Walk(start[table[more[j]]].observables, response).1.Done?
    {
      assert more[j] == labels[j];
    }
  }

  /** The middleware objects filed under the labels of `table`. */
  ghost function Filed(table: map<string, ObserverMiddleware>): set<ObserverMiddleware>
  {
    set l | l in table :: table[l]
  }

  /**
   * The middleware in `labels` handled the response under the labels `handledBy`, a
   * prefix of the labels in order that is all of them unless one raised: each object
   * changed from `start` as `HandledSince` says, and the walks ended as `WalkOutcomes`
   * says, the last with `outcome`.
   */
  ghost predicate Delivered(labels: ODict<string, ObserverMiddleware>, response: Response, outcome: Outcome,
                            handledBy: seq<string>, start: map<ObserverMiddleware, Snapshot>)
    reads Filed(labels.entries)
  {
    && |handledBy| <= |labels.keys| && handledBy == labels.keys[..|handledBy|]
    && (outcome.Done? ==> handledBy == labels.keys)
    && (outcome.Raised? ==> handledBy != [])
    && (forall l :: l in handledBy ==> l in labels.entries)
    && HandledSince(SnapshotsOf(Filed(labels.entries)), start, handledBy, labels.entries, response)
    && WalkOutcomes(start, labels.entries, handledBy, response, outcome)
  }

  /** A label appended to the sequence counts for its own object only. */
  lemma LabelCountMore(labels: seq<string>, l: string, table: map<string, ObserverMiddleware>, m: ObserverMiddleware)
    requires l in table && forall x :: x in labels ==> x in table
    ensures LabelCount(labels + [l], table, m) == LabelCount(labels, table, m) + if table[l] == m then 1 else 0
  {
    assert (labels + [l])[..|labels|] == labels;
  }

  /** `w` reported `n` times over. */
  function Repeat<T>(w: seq<T>, n: nat): (r: seq<T>)
    ensures |r| == n * |w|
    ensures n > 0 ==> r[..|w|] == w
  {
    if n == 0 then [] else w + Repeat(w, n - 1)
  }

  /** One more report of `w` comes after the earlier ones. */
  lemma RepeatMore<T>(w: seq<T>, n: nat)
    ensures Repeat(w, n + 1) == Repeat(w, n) + w
  {
    if n > 0 {
      RepeatMore(w, n - 1);
    }
  }

  // The controller
  // ~~~~~~~~~~~~~~

  /** A buffered request item: method, resource and keyword arguments. */
  datatype Item = Item(methodName: string, resource: string, kwargs: map<string, Value>)

  /** The item as `add_request_item` stores it: method and resource lower-cased and stripped. */
  function Normalize(it: Item): Item {
    Item(Strip(Lower(it.methodName)), Strip(Lower(it.resource)), it.kwargs)
  }

  /** The item as it travels in a request: a three-element list. */
  function ItemValue(it: Item): Value {
    VList([VStr(it.methodName), VStr(it.resource), VDict(it.kwargs)])
  }

  function ItemValues(items: seq<Item>): (r: seq<Value>)
    ensures |r| == |items| && forall i :: 0 <= i < |items| ==> r[i] == ItemValue(items[i])
  {
    seq(|items|, i requires 0 <= i < |items| => ItemValue(items[i]))
  }

  /** The worker routes an item the controller built to the handler it names. */
  lemma ItemRoutes(it: Item)
    requires it.methodName in Resources && it.resource in Resources[it.methodName]
    ensures Route(ItemValue(it)) == Ok((it.methodName, it.resource, it.kwargs))
  {
  }

  const NoClientForItem: Error := Error(NotImplementedError, "Can't submit request as a client has not been set.")
  const NoPlatform: Error := Error(NotImplementedError, "A platform has not been set.")
  const NoClientForRequest: Error := Error(NotImplementedError, "Controller requires a client in order to send a request.")

  /** A lower-case word: what `lower().strip()` leaves as it is. */
  predicate Plain(s: string) {
    forall i :: 0 <= i < |s| ==> 'a' <= s[i] <= 'z'
  }

  lemma PlainNormalized(s: string)
    requires Plain(s)
    ensures Strip(Lower(s)) == s
  {
    assert Lower(s) == s;
    if s != [] {
      assert StripLeft(s) == s;
      assert StripRight(s) == s;
    }
  }

  /** The checks of a builder in order: a platform must be set, then a client. */
  function Guard(platformSet: bool, clientSet: bool): (r: Outcome)
    ensures r.Done? <==> platformSet && clientSet
  {
    if !platformSet then Raised(NoPlatform)
    else if !clientSet then Raised(NoClientForItem)
    else Done
  }

  /**
   * `_check_resource_type`, with `title` the resource name already title-cased: the key
   * must be available; the ValueError names the resource and the key, then lists each
   * available key once, in the set's iteration order.
   */
  method CheckResourceType(title: string, key: string, available: set<string>) returns (r: Outcome)
    ensures r.Done? <==> key in available
    ensures r.Raised? ==> r.error.kind == ValueError
    ensures r.Raised? ==> exists listed: seq<string> ::
      && |listed| == |available| && (forall x :: x in listed <==> x in available)
      && r.error.message == title + " key '" + key + "' is invalid. Try: " + Join(listed, ", ")
  {
    if key !in available {
      var listed := Enumerate(available);
      return Raised(Error(ValueError, title + " key '" + key + "' is invalid. Try: " + Join(listed, ", ")));
    }
    r := Done;
  }

  /** `ControllerABC`: a client, middleware by label, the buffered items and the platform type. */
  class Controller {
    /** The worker's registry of platform types, as the controller consults it. */
    const platformTypes: map<string, ODict<string, ComponentType>>
    var client: Client?
    var middleware: ODict<string, ObserverMiddleware>
    var requestItems: seq<Item>
    var platformTypeKey: Option<string>

    ghost predicate Valid()
      reads this
    {
      && middleware.Valid()
      && (platformTypeKey.Some? ==> platformTypeKey.value in platformTypes)
    }

    /** The middleware objects the controller holds. */
    ghost function Middlewares(): set<ObserverMiddleware>
      reads this
    {
      Filed(middleware.entries)
    }

    constructor (types: map<string, ODict<string, ComponentType>>, client: Client?)
      ensures Valid() && platformTypes == types && this.client == client
      ensures middleware.entries == map[] && requestItems == [] && platformTypeKey == None
    {
      platformTypes := types;
      this.client := client;
      middleware := Empty();
      requestItems := [];
      platformTypeKey := None;
    }

    /**
     * `add_request_item`: without a client nothing is buffered and NotImplementedError is
     * raised; otherwise the item is appended with method and resource lower-cased and stripped.
     */
    method AddRequestItem(methodName: string, resource: string, kwargs: map<string, Value>) returns (r: Outcome)
      requires Valid()
      modifies this
      ensures Valid()
      ensures client == old(client) && middleware == old(middleware) && platformTypeKey == old(platformTypeKey)
      ensures client == null ==> r == Raised(NoClientForItem) && requestItems == old(requestItems)
      ensures client != null ==>
        r.Done? && requestItems == old(requestItems) + [Normalize(Item(methodName, resource, kwargs))]
    {
      if client == null {
        return Raised(NoClientForItem);
      }
      requestItems := requestItems + [Normalize(Item(methodName, resource, kwargs))];
      r := Done;
    }

    /** `_check_platform_is_set` */
    function PlatformCheck(): (r: Outcome)
      reads this
      ensures r.Done? <==> platformTypeKey.Some?
      ensures r.Raised? ==> r.error == NoPlatform
    {
      if platformTypeKey.None? then Raised(NoPlatform) else Done
    }

    /** `add_request_item` called with a plain method and resource, which it buffers as they are. */
    method Submit(methodName: string, resource: string, kwargs: map<string, Value>) returns (r: Outcome)
      requires Valid() && Plain(methodName) && Plain(resource)
      modifies this
      ensures Valid()
      ensures client == old(client) && middleware == old(middleware) && platformTypeKey == old(platformTypeKey)
      ensures r == Guard(true, client != null)
      ensures requestItems == old(requestItems) + (if r.Done? then [Item(methodName, resource, kwargs)] else [])
    {
      PlainNormalized(methodName);
      PlainNormalized(resource);
      r := AddRequestItem(methodName, resource, kwargs);
    }

    /** A builder after its own checks: the platform check, then the buffered item. */
    method Build(methodName: string, resource: string, kwargs: map<string, Value>) returns (r: Outcome)
      requires Valid() && Plain(methodName) && Plain(resource)
      modifies this
      ensures Valid()
      ensures client == old(client) && middleware == old(middleware) && platformTypeKey == old(platformTypeKey)
      ensures r == Guard(platformTypeKey.Some?, client != null)
      ensures requestItems == old(requestItems) + (if r.Done? then [Item(methodName, resource, kwargs)] else [])
    {
      r := PlatformCheck();
      if r.Raised? {
        return;
      }
      r := Submit(methodName, resource, kwargs);
    }

    /**
     * `add_platform`: an unavailable type raises ValueError and changes nothing; otherwise
     * the type is recorded, even if the item then cannot be buffered for want of a client.
     */
    method AddPlatform(typeName: string) returns (r: Outcome)
      requires Valid()
      modifies this
      ensures Valid() && client == old(client) && middleware == old(middleware)
      ensures typeName !in platformTypes ==>
        r.Raised? && r.error.kind == ValueError && platformTypeKey == old(platformTypeKey) && requestItems == old(requestItems)
      ensures typeName in platformTypes ==> platformTypeKey == Some(typeName) && r == Guard(true, client != null)
      ensures typeName in platformTypes ==>
        requestItems == old(requestItems) + (if r.Done? then [Item("add", "platform", map["type" := VStr(typeName)])] else [])
    {
      r := CheckResourceType("Platform", typeName, platformTypes.Keys);
      if r.Raised? {
        return;
      }
      platformTypeKey := Some(typeName);
      r := Build("add", "platform", map["type" := VStr(typeName)]);
    }

    /**
     * `add_component`: a platform must be set and the type must be one of its component
     * types (ValueError otherwise).
     */
    method AddComponent(key: string, typeName: string, setup: map<string, Value>) returns (r: Outcome)
      requires Valid()
      modifies this
      ensures Valid()
      ensures client == old(client) && middleware == old(middleware) && platformTypeKey == old(platformTypeKey)
      ensures platformTypeKey.None? ==> r == Raised(NoPlatform)
      ensures platformTypeKey.Some? && typeName !in platformTypes[platformTypeKey.value].entries ==>
        r.Raised? && r.error.kind == ValueError
      ensures platformTypeKey.Some? && typeName in platformTypes[platformTypeKey.value].entries ==>
        r == Guard(true, client != null)
      ensures requestItems == old(requestItems) +
        (if r.Done? then [Item("add", "component", map["key" := VStr(key), "type" := VStr(typeName), "setup" := VDict(setup)])] else [])
    {
      r := PlatformCheck();
      if r.Raised? {
        return;
      }
      r := CheckResourceType("Component", typeName, platformTypes[platformTypeKey.value].entries.Keys);
      if r.Raised? {
        return;
      }
      r := Build("add", "component", map["key" := VStr(key), "type" := VStr(typeName), "setup" := VDict(setup)]);
    }

    /** `add_routine` */
    method AddRoutine(key: string, interval: Value, executor: string, operation: string, kwargs: map<string, Value>)
      returns (r: Outcome)
      requires Valid()
      modifies this
      ensures Valid()
      ensures client == old(client) && middleware == old(middleware) && platformTypeKey == old(platformTypeKey)
      ensures r == Guard(platformTypeKey.Some?, client != null)
      ensures requestItems == old(requestItems) + (if r.Done? then [Item("add", "routine", map[
        "key" := VStr(key), "interval" := interval, "executor" := VStr(executor),
        "operation" := VStr(operation), "kwargs" := VDict(kwargs)])] else [])
    {
      r := Build("add", "routine", map["key" := VStr(key), "interval" := interval, "executor" := VStr(executor),
        "operation" := VStr(operation), "kwargs" := VDict(kwargs)]);
    }

    /** `remove_platform`: needs a client but not a platform. */
    method RemovePlatform() returns (r: Outcome)
      requires Valid()
      modifies this
      ensures Valid()
      ensures client == old(client) && middleware == old(middleware) && platformTypeKey == old(platformTypeKey)
      ensures r == Guard(true, client != null)
      ensures requestItems == old(requestItems) + (if r.Done? then [Item("remove", "platform", map[])] else [])
    {
      r := Submit("remove", "platform", map[]);
    }

    /** `remove_component` */
    method RemoveComponent(key: string) returns (r: Outcome)
      requires Valid()
      modifies this
      ensures Valid()
      ensures client == old(client) && middleware == old(middleware) && platformTypeKey == old(platformTypeKey)
      ensures r == Guard(platformTypeKey.Some?, client != null)
      ensures requestItems == old(requestItems) + (if r.Done? then [Item("remove", "component", map["key" := VStr(key)])] else [])
    {
      r := Build("remove", "component", map["key" := VStr(key)]);
    }

    /** `remove_routine` */
    method RemoveRoutine(key: string) returns (r: Outcome)
      requires Valid()
      modifies this
      ensures Valid()
      ensures client == old(client) && middleware == old(middleware) && platformTypeKey == old(platformTypeKey)
      ensures r == Guard(platformTypeKey.Some?, client != null)
      ensures requestItems == old(requestItems) + (if r.Done? then [Item("remove", "routine", map["key" := VStr(key)])] else [])
    {
      r := Build("remove", "routine", map["key" := VStr(key)]);
    }

    /** `execute_component` */
    method ExecuteComponent(key: string, operation: string, kwargs: map<string, Value>) returns (r: Outcome)
      requires Valid()
      modifies this
      ensures Valid()
      ensures client == old(client) && middleware == old(middleware) && platformTypeKey == old(platformTypeKey)
      ensures r == Guard(platformTypeKey.Some?, client != null)
      ensures requestItems == old(requestItems) + (if r.Done? then [Item("execute", "component", map[
        "key" := VStr(key), "operation" := VStr(operation), "kwargs" := VDict(kwargs)])] else [])
    {
      r := Build("execute", "component", map["key" := VStr(key), "operation" := VStr(operation), "kwargs" := VDict(kwargs)]);
    }

    /** `get_observations` */
    method GetObservations(selected: Value) returns (r: Outcome)
      requires Valid()
      modifies this
      ensures Valid()
      ensures client == old(client) && middleware == old(middleware) && platformTypeKey == old(platformTypeKey)
      ensures r == Guard(platformTypeKey.Some?, client != null)
      ensures requestItems == old(requestItems) + (if r.Done? then [Item("get", "observations", map["selected" := selected])] else [])
    {
      r := Build("get", "observations", map["selected" := selected]);
    }

    /** `get_components` */
    method GetComponents() returns (r: Outcome)
      requires Valid()
      modifies this
      ensures Valid()
      ensures client == old(client) && middleware == old(middleware) && platformTypeKey == old(platformTypeKey)
      ensures r == Guard(platformTypeKey.Some?, client != null)
      ensures requestItems == old(requestItems) + (if r.Done? then [Item("get", "components", map[])] else [])
    {
      r := Build("get", "components", map[]);
    }

    /** `get_routines` */
    method GetRoutines() returns (r: Outcome)
      requires Valid()
      modifies this
      ensures Valid()
      ensures client == old(client) && middleware == old(middleware) && platformTypeKey == old(platformTypeKey)
      ensures r == Guard(platformTypeKey.Some?, client != null)
      ensures requestItems == old(requestItems) + (if r.Done? then [Item("get", "routines", map[])] else [])
    {
      r := Build("get", "routines", map[]);
    }

    /** `set_client`: a new client of a known connection type. */
    method SetClient(hostname: string, port: int, clientType: string, exchange: Value -> Value) returns (r: Outcome)
      requires Valid()
      modifies this
      ensures Valid() && middleware == old(middleware) && requestItems == old(requestItems)
      ensures clientType !in ClientTypes ==> r == Raised(KeyErr(clientType)) && client == old(client)
      ensures clientType in ClientTypes ==>
        r.Done? && client != null && fresh(client) && client.hostname == hostname && client.port == port && client.exchange == exchange
    {
      if clientType !in ClientTypes {
        return Raised(KeyErr(clientType));
      }
      client := new Client(hostname, port, exchange);
      r := Done;
    }

    /** `remove_client` */
    method RemoveClient()
      requires Valid()
      modifies this
      ensures Valid() && client == null
      ensures middleware == old(middleware) && requestItems == old(requestItems) && platformTypeKey == old(platformTypeKey)
    {
      client := null;
    }

    /** `add_middleware` */
    method AddMiddleware(name: string, obj: ObserverMiddleware)
      requires Valid()
      modifies this
      ensures Valid() && middleware == Put(old(middleware), name, obj)
      ensures client == old(client) && requestItems == old(requestItems) && platformTypeKey == old(platformTypeKey)
    {
      middleware := Put(middleware, name, obj);
    }

    /** `remove_middleware`: an absent label is ignored. */
    method RemoveMiddleware(name: string)
      requires Valid()
      modifies this
      ensures Valid() && middleware == Remove(old(middleware), name)
      ensures client == old(client) && requestItems == old(requestItems) && platformTypeKey == old(platformTypeKey)
    {
      middleware := Remove(middleware, name);
    }

    /** `HandledSince`, for the labels handled so far and the objects this controller holds now. */
    ghost predicate Reporting(response: Response, handledBy: seq<string>, start: map<ObserverMiddleware, Snapshot>)
      reads this, Middlewares()
    {
      && (forall l :: l in handledBy ==> l in middleware.entries)
      && HandledSince(SnapshotsOf(Middlewares()), start, handledBy, middleware.entries, response)
    }

    /** The middleware under label `names[i]` handles the response. */
    method HandleLabel(response: Response, names: seq<string>, i: nat, handledBy: seq<string>, ghost start: map<ObserverMiddleware, Snapshot>)
      returns (outcome: Outcome, handled: seq<string>)
      requires Valid() && names == middleware.keys && i < |names| && handledBy == names[..i]
      requires Reporting(response, handledBy, start) && WalkOutcomes(start, middleware.entries, handledBy, response, Done)
      modifies Middlewares()
      ensures handled == names[..i + 1] && Reporting(response, handled, start)
      ensures WalkOutcomes(start, middleware.entries, handled, response, outcome)
    {
      assert names[i] in middleware.entries;
      var m := middleware.entries[names[i]];
      ghost var objects := Middlewares();
      assert m in objects;
      ghost var before := SnapshotsOf(objects);
      HandledStep(before, start, handledBy, middleware.entries, names[i], response);
      WalkOutcomesStep(start, middleware.entries, handledBy, names[i], response);
      outcome := HandleAmong(objects, m, response);
      handled := handledBy + [names[i]];
      assert handled == names[..i + 1];
      assert Middlewares() == objects;
    }

    /**
     * The middleware loop of `send_request`: each middleware handles the response once, in
     * label order, until one raises; the outcome is that of the last one to handle it.
     * Every middleware object keeps its observables and gains its walk's reports once per
     * label of `handledBy` it sits under.
     */
    method Dispatch(response: Response) returns (r: Outcome, handledBy: seq<string>, ghost start: map<ObserverMiddleware, Snapshot>)
      requires Valid() && forall m :: m in Middlewares() ==> m.Valid()
      modifies Middlewares()
      ensures start == old(SnapshotsOf(Middlewares()))
      ensures Delivered(middleware, response, r, handledBy, start)
    {
      var names := middleware.keys;
      start := SnapshotsOf(Middlewares());
      handledBy := [];
      var i := 0;
      while i < |names|
        invariant 0 <= i <= |names| && handledBy == names[..i]
        invariant Reporting(response, handledBy, start)
        invariant WalkOutcomes(start, middleware.entries, handledBy, response, Done)
      {
        var outcome;
        outcome, handledBy := HandleLabel(response, names, i, handledBy, start);
        if outcome.Raised? {
          return outcome, handledBy, start;
        }
        i := i + 1;
      }
      assert names[..i] == names;
      r := Done;
    }

    /**
     * `send_request`: without a client, NotImplementedError. Otherwise the buffered items
     * are sent; once the reply decodes, the buffer is emptied and the middleware handles
     * the response as in `Dispatch` (`handledBy`); an exception of a middleware is the
     * error of the call.
     */
    method SendRequest(now: real) returns (r: Result<Response>, handledBy: seq<string>, ghost start: map<ObserverMiddleware, Snapshot>)
      requires Valid() && forall m :: m in Middlewares() ==> m.Valid()
      modifies this, Middlewares()
      ensures Valid() && client == old(client) && middleware == old(middleware) && platformTypeKey == old(platformTypeKey)
      ensures start == old(SnapshotsOf(Middlewares()))
      ensures handledBy == [] ==> SnapshotsOf(Middlewares()) == start
      ensures client == null ==> r == Err(NoClientForRequest) && requestItems == old(requestItems) && handledBy == []
      ensures client != null ==>
        var sent := Connection.SendRequest(ItemValues(old(requestItems)), now, client.exchange);
        && (sent.Err? ==> r == Err(sent.error) && requestItems == old(requestItems) && handledBy == [])
        && (sent.Ok? ==> requestItems == [] && Delivered(middleware, sent.value, if r.Ok? then Done else Raised(r.error), handledBy, start))
        && (sent.Ok? && r.Ok? ==> r.value == sent.value)
    {
      handledBy := [];
      start := SnapshotsOf(Middlewares());
      if client == null {
        return Err(NoClientForRequest), handledBy, start;
      }
      var sent := Connection.SendRequest(ItemValues(requestItems), now, client.exchange);
      if sent.Err? {
        return Err(sent.error), handledBy, start;
      }
      r, handledBy, start := Receive(sent.value);
    }

    /**
     * The tail of `send_request` once the reply is decoded: the buffer is emptied, then
     * the middleware handles the response; the response is the result unless a middleware
     * raised.
     */
    method Receive(response: Response) returns (r: Result<Response>, handledBy: seq<string>, ghost start: map<ObserverMiddleware, Snapshot>)
      requires Valid() && forall m :: m in Middlewares() ==> m.Valid()
      modifies this, Middlewares()
      ensures Valid() && client == old(client) && middleware == old(middleware) && platformTypeKey == old(platformTypeKey)
      ensures start == old(SnapshotsOf(Middlewares())) && requestItems == []
      ensures Delivered(middleware, response, if r.Ok? then Done else Raised(r.error), handledBy, start)
      ensures r.Ok? ==> r.value == response
    {
      ClearBuffer();
      var outcome;
      outcome, handledBy, start := Dispatch(response);
      r := if outcome.Raised? then Err(outcome.error) else Ok(response);
    }

    /** `self._request_items.clear()`: the middleware objects are not touched. */
    method ClearBuffer()
      requires Valid()
      modifies this
      ensures Valid() && client == old(client) && middleware == old(middleware) && platformTypeKey == old(platformTypeKey)
      ensures requestItems == []
      ensures SnapshotsOf(Middlewares()) == old(SnapshotsOf(Middlewares()))
    {
      requestItems := [];
    }
  }

  // The ensemble
  // ~~~~~~~~~~~~

  /**
   * `ControllerEnsembleABC`: controllers (units) by tag, with a registry of clients and of
   * middleware whose objects the units share by reference.
   */
  class Ensemble {
    var units: ODict<string, Controller>
    var clients: map<string, Client>
    var registered: map<string, ObserverMiddleware>

    ghost predicate Valid()
      reads this, Units()
    {
      && units.Valid()
      && forall t :: t in units.entries ==> units.entries[t].Valid()
    }

    ghost function Units(): set<Controller>
      reads this
    {
      set t | t in units.entries :: units.entries[t]
    }

    constructor ()
      ensures Valid() && units.entries == map[] && clients == map[] && registered == map[]
    {
      units := Empty();
      clients := map[];
      registered := map[];
    }

    /** `ensemble[tag] = unit` */
    method SetUnit(tag: string, unit: Controller)
      requires Valid() && unit.Valid()
      modifies this
      ensures Valid() && units == Put(old(units), tag, unit)
      ensures clients == old(clients) && registered == old(registered)
    {
      units := Put(units, tag, unit);
    }

    /** `get_unit`: KeyError for an unknown tag. */
    function GetUnit(tag: string): (r: Result<Controller>)
      reads this
      ensures r.Ok? <==> tag in units.entries
      ensures r.Ok? ==> r.value == units.entries[tag]
      ensures r.Err? ==> r.error == KeyErr(tag)
    {
      if tag in units.entries then Ok(units.entries[tag]) else Err(KeyErr(tag))
    }

    /** `add_client`: a new client of a known connection type is registered under the label. */
    method AddClient(name: string, hostname: string, port: int, clientType: string, exchange: Value -> Value)
      returns (r: Outcome)
      requires Valid()
      modifies this
      ensures Valid() && units == old(units) && registered == old(registered)
      ensures clientType !in ClientTypes ==> r == Raised(KeyErr(clientType)) && clients == old(clients)
      ensures clientType in ClientTypes ==>
        r.Done? && name in clients && fresh(clients[name]) && clients == old(clients)[name := clients[name]]
    {
      if clientType !in ClientTypes {
        return Raised(KeyErr(clientType));
      }
      var c := new Client(hostname, port, exchange);
      clients := clients[name := c];
      r := Done;
    }

    /**
     * `add_client_to_unit`: the unit's client becomes the registered object itself. The
     * label is looked up before the tag.
     */
    method AddClientToUnit(name: string, tag: string) returns (r: Outcome)
      requires Valid()
      modifies Units()
      ensures Valid()
      ensures name !in clients ==> r == Raised(KeyErr(name))
      ensures name in clients && tag !in units.entries ==> r == Raised(KeyErr(tag))
      ensures name in clients && tag in units.entries ==> r.Done? && units.entries[tag].client == clients[name]
      ensures forall t :: t in units.entries && (r.Raised? || units.entries[t] != units.entries[tag]) ==>
        units.entries[t].client == old(units.entries[t].client)
      ensures forall t :: t in units.entries ==>
        units.entries[t].middleware == old(units.entries[t].middleware) && units.entries[t].requestItems == old(units.entries[t].requestItems)
    {
      if name !in clients {
        return Raised(KeyErr(name));
      }
      if tag !in units.entries {
        return Raised(KeyErr(tag));
      }
      var unit := units.entries[tag];
      unit.client := clients[name];
      r := Done;
    }

    /** `remove_client_from_unit`: the unit lets go of its client only if it is the registered object. */
    method RemoveClientFromUnit(name: string, tag: string) returns (r: Outcome)
      requires Valid()
      modifies Units()
      ensures Valid()
      ensures tag !in units.entries ==> r == Raised(KeyErr(tag))
      ensures tag in units.entries && name !in clients ==> r == Raised(KeyErr(name))
      ensures tag in units.entries && name in clients ==> r.Done?
      ensures r.Done? && old(units.entries[tag].client) == clients[name] ==> units.entries[tag].client == null
      ensures forall t :: t in units.entries ==>
        || units.entries[t].client == old(units.entries[t].client)
        || (r.Done? && old(units.entries[t].client) == clients[name] && units.entries[t].client == null)
      ensures forall t :: t in units.entries ==>
        units.entries[t].middleware == old(units.entries[t].middleware) && units.entries[t].requestItems == old(units.entries[t].requestItems)
    {
      if tag !in units.entries {
        return Raised(KeyErr(tag));
      }
      if name !in clients {
        return Raised(KeyErr(name));
      }
      var unit := units.entries[tag];
      if unit.client == clients[name] {
        unit.RemoveClient();
      }
      r := Done;
    }

    /**
     * `remove_client`: every unit holding the registered object lets go of it, units with
     * other clients keep theirs, and the label is unregistered. An unknown label is ignored.
     */
    method RemoveClient(name: string)
      requires Valid()
      modifies this, Units()
      ensures Valid() && units == old(units) && registered == old(registered)
      ensures clients == old(clients) - {name}
      ensures name in old(clients) ==> forall t :: t in units.entries ==> units.entries[t].client != old(clients[name])
      ensures forall t :: t in units.entries && (name !in old(clients) || old(units.entries[t].client) != old(clients[name])) ==>
        units.entries[t].client == old(units.entries[t].client)
      ensures forall t :: t in units.entries ==>
        units.entries[t].middleware == old(units.entries[t].middleware) && units.entries[t].requestItems == old(units.entries[t].requestItems)
    {
      if name !in clients {
        return;
      }
      var target := clients[name];
      var tags := units.keys;
      var i := 0;
      while i < |tags|
        invariant 0 <= i <= |tags| && tags == units.keys && units == old(units) && clients == old(clients)
        invariant registered == old(registered)
        invariant Valid()
        invariant forall j :: 0 <= j < i ==> units.entries[tags[j]].client != target
        invariant forall t :: t in units.entries ==>
          units.entries[t].client == old(units.entries[t].client) || (old(units.entries[t].client) == target && units.entries[t].client == null)
        invariant forall t :: t in units.entries ==>
          units.entries[t].middleware == old(units.entries[t].middleware) && units.entries[t].requestItems == old(units.entries[t].requestItems)
      {
        assert tags[i] in units.entries;
        var _ := RemoveClientFromUnit(name, tags[i]);
        i := i + 1;
      }
      clients := clients - {name};
    }

    /** `add_middleware`: the object is registered under the label. */
    method AddMiddleware(name: string, obj: ObserverMiddleware)
      requires Valid()
      modifies this
      ensures Valid() && units == old(units) && clients == old(clients)
      ensures registered == old(registered)[name := obj]
    {
      registered := registered[name := obj];
    }

    /**
     * `add_middleware_to_unit`: the unit holds the registered object under the label. The
     * tag is looked up before the label.
     */
    method AddMiddlewareToUnit(name: string, tag: string) returns (r: Outcome)
      requires Valid()
      modifies Units()
      ensures Valid()
      ensures tag !in units.entries ==> r == Raised(KeyErr(tag))
      ensures tag in units.entries && name !in registered ==> r == Raised(KeyErr(name))
      ensures tag in units.entries && name in registered ==>
        r.Done? && units.entries[tag].middleware == Put(old(units.entries[tag].middleware), name, registered[name])
      ensures forall t :: t in units.entries && (r.Raised? || units.entries[t] != units.entries[tag]) ==>
        units.entries[t].middleware == old(units.entries[t].middleware)
      ensures forall t :: t in units.entries ==>
        units.entries[t].client == old(units.entries[t].client) && units.entries[t].requestItems == old(units.entries[t].requestItems)
    {
      if tag !in units.entries {
        return Raised(KeyErr(tag));
      }
      if name !in registered {
        return Raised(KeyErr(name));
      }
      var unit := units.entries[tag];
      unit.AddMiddleware(name, registered[name]);
      r := Done;
    }

    /**
     * `remove_middleware_from_unit`: the unit must hold the label (KeyError otherwise); it
     * drops the entry only if it holds the registered object itself, so that afterwards it
     * does not hold the registered object under the label.
     */
    method RemoveMiddlewareFromUnit(name: string, tag: string) returns (r: Outcome)
      requires Valid()
      modifies Units()
      ensures Valid()
      ensures r.Done? <==> tag in units.entries && name in old(units.entries[tag].middleware.entries) && name in registered
      ensures r.Raised? ==> r.error == if tag in units.entries then KeyErr(name) else KeyErr(tag)
      ensures r.Done? && name in units.entries[tag].middleware.entries ==>
        units.entries[tag].middleware.entries[name] != registered[name]
      ensures forall t :: t in units.entries ==>
        units.entries[t].client == old(units.entries[t].client) && units.entries[t].requestItems == old(units.entries[t].requestItems)
      ensures forall t :: t in units.entries ==>
        || units.entries[t].middleware == old(units.entries[t].middleware)
        || (r.Done? && units.entries[t] == units.entries[tag]
            && units.entries[t].middleware == Remove(old(units.entries[t].middleware), name))
    {
      if tag !in units.entries {
        return Raised(KeyErr(tag));
      }
      var unit := units.entries[tag];
      if name !in unit.middleware.entries || name !in registered {
        return Raised(KeyErr(name));
      }
      if unit.middleware.entries[name] == registered[name] {
        unit.RemoveMiddleware(name);
      }
      r := Done;
    }

    /** No unit among `ts` holds `target` under the label. */
    ghost predicate Swept(name: string, target: ObserverMiddleware, ts: seq<string>)
      reads this, Units()
    {
      forall t :: t in ts && t in units.entries && name in units.entries[t].middleware.entries ==>
        units.entries[t].middleware.entries[name] != target
    }

    /**
     * The first `i` units had the label before the sweep, no unit gained it, and the
     * units' clients and buffers are as they were.
     */
    twostate predicate Sweeping(name: string, tags: seq<string>, i: nat)
      requires old(Valid()) && units == old(units) && i <= |tags| && tags == units.keys
      reads this, Units()
    {
      && (forall j :: 0 <= j < i ==> name in old(units.entries[tags[j]].middleware.entries))
      && (forall t :: t in units.entries && name in units.entries[t].middleware.entries ==>
            name in old(units.entries[t].middleware.entries))
      && (forall t :: t in units.entries ==>
            units.entries[t].client == old(units.entries[t].client) && units.entries[t].requestItems == old(units.entries[t].requestItems))
    }

    /** One unit of `remove_middleware`: `remove_middleware_from_unit` on the `i`-th tag. */
    method SweepUnit(name: string, target: ObserverMiddleware, tags: seq<string>, i: nat) returns (r: Outcome)
      requires Valid() && tags == units.keys && i < |tags|
      requires name in registered && registered[name] == target && Swept(name, target, tags[..i])
      modifies Units()
      ensures Valid()
      ensures r.Done? ==> Swept(name, target, tags[..i + 1])
      ensures r.Raised? ==> r.error == KeyErr(name) && name !in units.entries[tags[i]].middleware.entries
      ensures r.Done? ==> name in old(units.entries[tags[i]].middleware.entries)
      ensures forall t :: t in units.entries && name in units.entries[t].middleware.entries ==>
        name in old(units.entries[t].middleware.entries)
      ensures forall t :: t in units.entries ==>
        units.entries[t].client == old(units.entries[t].client) && units.entries[t].requestItems == old(units.entries[t].requestItems)
    {
      assert tags[i] in units.entries;
      ghost var before := map t | t in units.entries :: units.entries[t].middleware;
      r := RemoveMiddlewareFromUnit(name, tags[i]);
      if r.Raised? {
        return;
      }
      forall t | t in tags[..i + 1] && t in units.entries && name in units.entries[t].middleware.entries
        ensures units.entries[t].middleware.entries[name] != target
      {
        if t != tags[i] {
          assert t in tags[..i];
          assert units.entries[t].middleware == before[t];
        }
      }
    }

    /**
     * `remove_middleware`: each unit in turn must hold the label and drops it when it holds
     * the registered object; then the label is unregistered. The first unit without the
     * label raises KeyError, after the units before it were handled and with the label
     * still registered. An unknown label is ignored.
     */
    method RemoveMiddleware(name: string) returns (r: Outcome)
      requires Valid()
      modifies this, Units()
      ensures Valid() && units == old(units) && clients == old(clients)
      ensures name !in old(registered) ==> r.Done? && registered == old(registered)
      ensures r.Done? ==> registered == old(registered) - {name}
      ensures r.Done? && name in old(registered) ==>
        forall t :: t in units.entries && name in units.entries[t].middleware.entries ==>
          units.entries[t].middleware.entries[name] != old(registered[name])
      ensures r.Raised? ==> r.error == KeyErr(name) && registered == old(registered)
      ensures r.Raised? ==> exists t :: t in units.entries && name !in units.entries[t].middleware.entries
      ensures name in old(registered) && (exists t :: t in units.entries && name !in old(units.entries[t].middleware.entries)) ==>
        r.Raised?
      ensures forall t :: t in units.entries ==>
        units.entries[t].client == old(units.entries[t].client) && units.entries[t].requestItems == old(units.entries[t].requestItems)
    {
      if name !in registered {
        return Done;
      }
      var target := registered[name];
      var tags := units.keys;
      var i := 0;
      while i < |tags|
        invariant 0 <= i <= |tags| && tags == units.keys && units == old(units) && clients == old(clients)
        invariant registered == old(registered)
        invariant Valid() && Swept(name, target, tags[..i]) && Sweeping(name, tags, i)
      {
        r := SweepUnit(name, target, tags, i);
        if r.Raised? {
          return;
        }
        i := i + 1;
      }
      assert tags[..i] == tags;
      forall t | t in units.entries ensures name in old(units.entries[t].middleware.entries) {
        var j :| 0 <= j < |tags| && tags[j] == t;
      }
      registered := registered - {name};
      r := Done;
    }
  }
}
