/**
 * The gate network of mindstone/gatenetwork.py: gates are controllers that run a
 * procedure on a feed, and a network connects them with (possibly conditional) edges
 * and resolves them generation by generation, from a starting gate to the gates that
 * have no successors.
 */
module GateNetwork {
  import opened Common
  import opened Utils
  import opened Connection
  import opened Graph
  import opened Controller

  // Gates
  // ~~~~~

  /**
   * What a gate procedure does when it runs on a feed: the request items it queues on
   * its gate through `add_request_item` (or a builder), then its result or the
   * exception it raises.
   */
  datatype Activation = Activation(requests: seq<Item>, result: Result<Value>)

  /** The items as `add_request_item` stores them, in order. */
  function Normalized(items: seq<Item>): (r: seq<Item>)
    ensures |r| == |items|
  {
    if items == [] then [] else Normalized(items[..|items| - 1]) + [Normalize(items[|items| - 1])]
  }

  /** Each stored item is the normalized form of the item at the same position. */
  lemma {:induction false} NormalizedAt(items: seq<Item>, k: nat)
    requires k < |items|
    ensures Normalized(items)[k] == Normalize(items[k])
  {
    var init := items[..|items| - 1];
    assert Normalized(items) == Normalized(init) + [Normalize(items[|items| - 1])];
    if k < |init| {
      NormalizedAt(init, k);
      assert items[k] == init[k];
    }
  }

  /** Normalizing one more item extends the normalized prefix by that item. */
  lemma NormalizedStep(items: seq<Item>, i: nat)
    requires i < |items|
    ensures Normalized(items[..i + 1]) == Normalized(items[..i]) + [Normalize(items[i])]
  {
    assert items[..i + 1][..i] == items[..i];
  }

  /** `Gate`: a controller (`unit`) with a procedure and the feed it exposes to it. */
  class Gate {
    const unit: Controller
    const procedure: Value -> Activation
    var feed: Value

    constructor (unit: Controller, procedure: Value -> Activation)
      ensures this.unit == unit && this.procedure == procedure && feed == VNone
    {
      this.unit := unit;
      this.procedure := procedure;
      feed := VNone;
    }

    /** The procedure's call of `add_request_item` for the `i`-th item. */
    method QueueOne(requests: seq<Item>, i: nat, ghost start: seq<Item>) returns (r: Outcome)
      requires unit.Valid() && i < |requests| && unit.requestItems == start + Normalized(requests[..i])
      modifies unit
      ensures unit.Valid() && unit.client == old(unit.client) && unit.middleware == old(unit.middleware)
      ensures unit.client == null ==> r == Raised(NoClientForItem) && unit.requestItems == old(unit.requestItems)
      ensures unit.client != null ==> r.Done? && unit.requestItems == start + Normalized(requests[..i + 1])
    {
      var it := requests[i];
      r := unit.AddRequestItem(it.methodName, it.resource, it.kwargs);
      assert Item(it.methodName, it.resource, it.kwargs) == it;
      NormalizedStep(requests, i);
    }

    /** The procedure's calls of `add_request_item`, in order; without a client the first one raises. */
    method Queue(requests: seq<Item>) returns (r: Outcome)
      requires unit.Valid()
      modifies unit
      ensures unit.Valid() && unit.client == old(unit.client) && unit.middleware == old(unit.middleware)
      ensures unit.client == null && requests != [] ==> r == Raised(NoClientForItem)
      ensures unit.client == null ==> unit.requestItems == old(unit.requestItems)
      ensures unit.client != null || requests == [] ==> r.Done?
      ensures unit.client != null ==> unit.requestItems == old(unit.requestItems) + Normalized(requests)
    {
      r := Done;
      ghost var start := unit.requestItems;
      var i := 0;
      while i < |requests|
        invariant 0 <= i <= |requests| && r.Done?
        invariant unit.Valid() && unit.client == old(unit.client) && unit.middleware == old(unit.middleware)
        invariant unit.client == null ==> i == 0
        invariant unit.requestItems == start + Normalized(requests[..i])
      {
        r := QueueOne(requests, i, start);
        if r.Raised? {
          return;
        }
        i := i + 1;
      }
      assert requests[..i] == requests;
    }

    /**
     * `run`: the feed is exposed while the procedure runs and cleared once it returns; an
     * exception leaves it exposed. After the procedure, the stored request items are sent
     * (`sent`) exactly when a client is set and there are any; then the result is the
     * procedure's unless sending raised (`reply` is what `send_request` came to, with the
     * middleware labels that handled the response and the middleware states before).
     */
    method Run(feed: Value, now: real)
      returns (r: Result<Value>, sent: bool, ghost reply: Result<Response>, ghost handledBy: seq<string>,
               ghost start: map<ObserverMiddleware, Snapshot>)
      requires unit.Valid() && forall m :: m in unit.Middlewares() ==> m.Valid()
      modifies this, unit, unit.Middlewares()
      ensures unit.Valid() && unit.client == old(unit.client) && unit.middleware == old(unit.middleware)
      ensures unit.client == null && procedure(feed).requests != [] ==> r == Err(NoClientForItem) && !sent && this.feed == feed
      ensures unit.client == null && procedure(feed).requests == [] ==>
        r == procedure(feed).result && !sent && unit.requestItems == old(unit.requestItems)
      ensures unit.client != null && procedure(feed).result.Err? ==>
        r == procedure(feed).result && !sent && this.feed == feed
        && unit.requestItems == old(unit.requestItems) + Normalized(procedure(feed).requests)
      ensures unit.client != null && procedure(feed).result.Ok? ==>
        this.feed == VNone && (sent <==> old(unit.requestItems) + procedure(feed).requests != [])
      ensures r.Ok? ==> r == procedure(feed).result && this.feed == VNone
      ensures unit.client != null && procedure(feed).result.Ok? && !sent ==> r == procedure(feed).result
      ensures sent ==> unit.client != null && procedure(feed).result.Ok? && (r == procedure(feed).result || (reply.Err? && r == Err(reply.error)))
      ensures sent ==>
        var queued := old(unit.requestItems) + Normalized(procedure(feed).requests);
        var transmitted := Connection.SendRequest(ItemValues(queued), now, unit.client.exchange);
        && (transmitted.Err? ==> reply == Err(transmitted.error) && unit.requestItems == queued)
        && (transmitted.Ok? ==>
              unit.requestItems == [] && Delivered(unit.middleware, transmitted.value, if reply.Ok? then Done else Raised(reply.error), handledBy, start))
        && (reply.Ok? ==> r == procedure(feed).result)
        && (reply.Err? ==> r == Err(reply.error))
    {
      this.feed := feed;
      sent, reply, handledBy, start := false, Err(NoClientForRequest), [], map[];
      var a := procedure(feed);
      var queued := Queue(a.requests);
      if queued.Raised? {
        return Err(queued.error), false, reply, handledBy, start;
      }
      if a.result.Err? {
        return a.result, false, reply, handledBy, start;
      }
      this.feed := VNone;
      if unit.client != null && |unit.requestItems| > 0 {
        sent := true;
        var answer, labels;
        answer, labels, start := unit.SendRequest(now);
        reply, handledBy := answer, labels;
        if answer.Err? {
          return Err(answer.error), sent, reply, handledBy, start;
        }
      }
      r := a.result;
    }
  }

  /**
   * `InjectionHandler.__call__`: the feed (a dictionary, or an empty one for `None`)
   * updated with the handler's own entries; a feed of another type has no `update`.
   */
  function Inject(entries: map<string, Value>, feed: Value): (r: Result<Value>)
    ensures r.Ok? <==> feed.VNone? || feed.VDict?
    ensures r.Ok? ==> r.value.VDict? && r.value.entries.Keys == entries.Keys + (if feed.VDict? then feed.entries.Keys else {})
    ensures r.Ok? ==> forall k :: k in entries ==> r.value.entries[k] == entries[k]
    ensures r.Ok? && feed.VDict? ==> forall k :: k in feed.entries && k !in entries ==> r.value.entries[k] == feed.entries[k]
    ensures r.Err? ==> r.error == NoAttributeOn(TypeName(feed), "update")
  {
    match feed
    case VNone => Ok(VDict(entries))
    case VDict(d) => Ok(VDict(d + entries))
    case _ => Err(NoAttributeOn(TypeName(feed), "update"))
  }

  /** An injection handler as a gate procedure: it queues nothing. */
  function Injection(entries: map<string, Value>): Value -> Activation {
    feed => Activation([], Inject(entries, feed))
  }

  /** Injecting the same entries twice is injecting them once. */
  lemma InjectIdempotent(entries: map<string, Value>, feed: Value)
    requires Inject(entries, feed).Ok?
    ensures Inject(entries, Inject(entries, feed).value) == Inject(entries, feed)
  {
    var once := Inject(entries, feed).value;
    assert once.entries + entries == once.entries;
  }

  // Conditional edges
  // ~~~~~~~~~~~~~~~~~

  /** The condition of a conditional edge: a path into the parent's result, a comparison and its target. */
  datatype Condition = Condition(path: string, evaluator: (Value, Value) -> bool, target: Value)

  type Conditions = map<(Tag, Tag), Condition>

  /** The numeric value of a boolean, integer or float, as Python compares them. */
  function Numeric(v: Value): Option<real> {
    match v
    case VBool(b) => Some(if b then 1.0 else 0.0)
    case VInt(i) => Some(i as real)
    case VFloat(x) => Some(x)
    case _ => None
  }

  /** Python's `a == b` at the top level: numbers compare by value across their types. */
  function PyEquals(a: Value, b: Value): (r: bool)
    ensures a == b ==> r
    ensures r && Numeric(a).None? ==> a == b
  {
    if Numeric(a).Some? && Numeric(b).Some? then Numeric(a).value == Numeric(b).value else a == b
  }

  /** The evaluator a conditional edge uses when none is given. */
  function DefaultEvaluator(): (Value, Value) -> bool {
    (a, b) => PyEquals(a, b)
  }

  /** The evaluator of a fallback edge: the negation of the one it complements. */
  function Negated(evaluator: (Value, Value) -> bool): (r: (Value, Value) -> bool)
    ensures forall a, b :: r(a, b) == !evaluator(a, b)
  {
    (a, b) => !evaluator(a, b)
  }

  /**
   * Whether the edge `parent → child` lets the parent's result through: always when the
   * edge has no condition; for a conditional edge, only a dictionary result whose value
   * at the condition's path satisfies the evaluator. The path lookup may raise.
   */
  function Passes(conditions: Conditions, parent: Tag, result: Value, child: Tag): (r: Result<bool>)
    ensures (parent, child) !in conditions ==> r == Ok(true)
    ensures (parent, child) in conditions && !result.VDict? ==> r == Ok(false)
    ensures (parent, child) in conditions && r == Ok(true) ==>
      var c := conditions[(parent, child)];
      result.VDict? && GetNested(c.path, result).Ok? && c.evaluator(GetNested(c.path, result).value, c.target)
    ensures r.Err? ==>
      (parent, child) in conditions && GetNested(conditions[(parent, child)].path, result).Err?
      && r.error == GetNested(conditions[(parent, child)].path, result).error
  {
    if (parent, child) !in conditions then Ok(true)
    else
      var c := conditions[(parent, child)];
      if !result.VDict? then Ok(false)
      else match GetNested(c.path, result)
        case Err(e) => Err(e)
        case Ok(v) => Ok(c.evaluator(v, c.target))
  }

  /**
   * An edge and its fallback: on a dictionary result whose path can be looked up, exactly
   * one of the two lets it through; on any other result neither does.
   */
  lemma FallbackExactlyOne(conditions: Conditions, from: Tag, to: Tag, fallback: Tag, result: Value)
    requires (from, to) in conditions && (from, fallback) in conditions
    requires conditions[(from, fallback)].path == conditions[(from, to)].path
    requires conditions[(from, fallback)].target == conditions[(from, to)].target
    requires forall a, b :: conditions[(from, fallback)].evaluator(a, b) == !conditions[(from, to)].evaluator(a, b)
    ensures result.VDict? && Passes(conditions, from, result, to).Ok? ==>
      Passes(conditions, from, result, fallback) == Ok(!Passes(conditions, from, result, to).value)
    ensures !result.VDict? ==> Passes(conditions, from, result, to) == Ok(false) && Passes(conditions, from, result, fallback) == Ok(false)
  {
  }

  // Feeds
  // ~~~~~

  /** A value `dict.update` accepts: a dictionary, or an empty string or list; `None` stands for `{}`. */
  predicate Absorbable(v: Value) {
    v.VNone? || v.VDict? || v == VStr("") || v == VList([])
  }

  /** `acc.update(v if v is not None else {})`. */
  function Absorb(acc: map<string, Value>, v: Value): (r: Result<map<string, Value>>)
    ensures r.Ok? <==> Absorbable(v)
    ensures r.Ok? ==> r.value == if v.VDict? then acc + v.entries else acc
  {
    match v
    case VNone => Ok(acc)
    case VDict(d) => Ok(acc + d)
    case VStr(s) =>
      if s == "" then Ok(acc) else Err(Error(ValueError, "dictionary update sequence element #0 has length 1; 2 is required"))
    case VList(items) =>
      if items == [] then Ok(acc) else Err(Error(TypeError, "cannot convert dictionary update sequence element #0 to a sequence"))
    case _ => Err(Error(TypeError, "'" + TypeName(v) + "' object is not iterable"))
  }

  /** The feed merged from the parents' results, taken in the given order. */
  function FeedOf(parents: seq<Tag>, results: map<Tag, Value>): Result<map<string, Value>>
    requires forall p :: p in parents ==> p in results
  {
    if parents == [] then Ok(map[])
    else match FeedOf(parents[..|parents| - 1], results)
      case Err(e) => Err(e)
      case Ok(acc) => Absorb(acc, results[parents[|parents| - 1]])
  }

  /** `k` is a key of the dictionary `v`. */
  predicate Supplies(v: Value, k: string) {
    v.VDict? && k in v.entries
  }

  /** The merged feed exists exactly when each parent's result is one `dict.update` accepts. */
  lemma {:induction false} FeedOfDefined(parents: seq<Tag>, results: map<Tag, Value>)
    requires forall p :: p in parents ==> p in results
    ensures FeedOf(parents, results).Ok? <==> forall p :: p in parents ==> Absorbable(results[p])
  {
    if parents != [] {
      var init := parents[..|parents| - 1];
      var last := parents[|parents| - 1];
      assert parents == init + [last];
      FeedOfDefined(init, results);
    }
  }

  /** The keys of the merged feed are exactly the keys of the parents' results. */
  lemma {:induction false} FeedOfKeys(parents: seq<Tag>, results: map<Tag, Value>)
    requires forall p :: p in parents ==> p in results
    requires FeedOf(parents, results).Ok?
    ensures forall k :: k in FeedOf(parents, results).value <==>
      exists i :: 0 <= i < |parents| && Supplies(results[parents[i]], k)
  {
    if parents != [] {
      var init := parents[..|parents| - 1];
      var last := parents[|parents| - 1];
      FeedOfKeys(init, results);
      var r := FeedOf(parents, results);
      forall k ensures k in r.value <==> exists i :: 0 <= i < |parents| && Supplies(results[parents[i]], k) {
        if k in r.value && !Supplies(results[last], k) {
          var i :| 0 <= i < |init| && Supplies(results[init[i]], k);
          assert parents[i] == init[i];
        }
        if exists i :: 0 <= i < |parents| && Supplies(results[parents[i]], k) {
          var i :| 0 <= i < |parents| && Supplies(results[parents[i]], k);
          if i < |init| {
            assert init[i] == parents[i];
          }
        }
      }
    }
  }

  /** Each key of the merged feed holds the value of the last parent that supplies it. */
  lemma {:induction false} FeedOfLastWins(parents: seq<Tag>, results: map<Tag, Value>)
    requires forall p :: p in parents ==> p in results
    requires FeedOf(parents, results).Ok?
    ensures forall i, k ::
      0 <= i < |parents| && Supplies(results[parents[i]], k) &&
      (forall j :: i < j < |parents| ==> !Supplies(results[parents[j]], k)) ==>
        k in FeedOf(parents, results).value && FeedOf(parents, results).value[k] == results[parents[i]].entries[k]
  {
    if parents != [] {
      var init := parents[..|parents| - 1];
      FeedOfLastWins(init, results);
      var r := FeedOf(parents, results);
      forall i, k | 0 <= i < |parents| && Supplies(results[parents[i]], k) &&
        (forall j :: i < j < |parents| ==> !Supplies(results[parents[j]], k))
        ensures k in r.value && r.value[k] == results[parents[i]].entries[k]
      {
        if i < |init| {
          assert init[i] == parents[i];
          assert !Supplies(results[parents[|parents| - 1]], k);
          forall j | i < j < |init| ensures !Supplies(results[init[j]], k) {
            assert init[j] == parents[j];
          }
        }
      }
    }
  }

  /**
   * The merged feed is the shallow merge of the parents' results: it exists exactly when
   * each result is one `dict.update` accepts, its keys are the keys of those results, and
   * each key holds the value of the last parent that supplies it.
   */
  lemma FeedOfMerges(parents: seq<Tag>, results: map<Tag, Value>)
    requires forall p :: p in parents ==> p in results
    ensures FeedOf(parents, results).Ok? <==> forall p :: p in parents ==> Absorbable(results[p])
    ensures FeedOf(parents, results).Ok? ==> forall k :: k in FeedOf(parents, results).value <==>
      exists i :: 0 <= i < |parents| && Supplies(results[parents[i]], k)
    ensures FeedOf(parents, results).Ok? ==> forall i, k ::
      0 <= i < |parents| && Supplies(results[parents[i]], k) &&
      (forall j :: i < j < |parents| ==> !Supplies(results[parents[j]], k)) ==>
        FeedOf(parents, results).value[k] == results[parents[i]].entries[k]
  {
    FeedOfDefined(parents, results);
    if FeedOf(parents, results).Ok? {
      FeedOfKeys(parents, results);
      FeedOfLastWins(parents, results);
    }
  }

  /** Once merging a prefix of the parents fails, merging them all fails the same way. */
  lemma {:induction false} FeedOfStops(parents: seq<Tag>, n: nat, results: map<Tag, Value>)
    requires n <= |parents| && forall p :: p in parents ==> p in results
    requires FeedOf(parents[..n], results).Err?
    ensures FeedOf(parents, results) == FeedOf(parents[..n], results)
    decreases |parents| - n
  {
    if n < |parents| {
      assert parents[..n + 1][..n] == parents[..n];
      FeedOfStops(parents, n + 1, results);
    } else {
      assert parents[..n] == parents;
    }
  }

  // Resolution state
  // ~~~~~~~~~~~~~~~~

  /**
   * The maps `_resolve_all` keeps: the current generation's results, the results held
   * for children still waiting on other parents (a dictionary from parent tag to result
   * per child), the resolved results, and the feeds of the gates to run next.
   */
  datatype Epoch = Epoch(current: map<Tag, Value>, unsatisfied: map<Tag, Value>, resolved: map<Tag, Value>, toBe: map<Tag, Value>)

  /** What `to_update.get(key)` reads. */
  function Entry(m: map<Tag, Value>, k: Tag): (r: Option<Value>)
    ensures r.Some? <==> k in m
    ensures r.Some? ==> r.value == m[k]
  {
    if k in m then Some(m[k]) else None
  }

  /** The dictionary stored under `k`, or `{}`. */
  function DictAt(m: map<Tag, Value>, k: Tag): map<string, Value> {
    if k in m && m[k].VDict? then m[k].entries else map[]
  }

  /** The parents a child waits for on an edge: just the parent for a conditional edge, otherwise all its unconditional in-neighbours. */
  function Feeders(g: Graph, conditions: Conditions, parent: Tag, child: Tag): (r: set<Tag>)
    ensures (parent, child) in conditions ==> r == {parent}
    ensures (parent, child) !in conditions ==> forall p :: p in r <==> p in g && child in g[p] && (p, child) !in conditions
  {
    if (parent, child) in conditions then {parent}
    else set p | p in InNeighbors(g, child) && (p, child) !in conditions
  }

  /**
   * The child `c` may be scheduled from `p` in a generation: `p` is in it and has the edge,
   * the edge lets `p`'s result through, and every parent `c` waits for has a result in
   * the generation or held for `c` from before.
   */
  ghost predicate FiredFrom(g: Graph, conditions: Conditions, copy: map<Tag, Value>, unsat0: map<Tag, Value>, p: Tag, c: Tag) {
    && p in copy && p in g && c in g[p]
    && Passes(conditions, p, copy[p], c) == Ok(true)
    && Feeders(g, conditions, p, c) <= DictAt(unsat0, c).Keys + copy.Keys
  }

  /**
   * The child `c` is ready from `p` on the generation alone: `p` is in it and has the edge,
   * the edge lets `p`'s result through, and every parent `c` waits for is in the generation.
   */
  ghost predicate Ready(g: Graph, conditions: Conditions, copy: map<Tag, Value>, p: Tag, c: Tag) {
    && p in copy && p in g && c in g[p]
    && Passes(conditions, p, copy[p], c) == Ok(true)
    && Feeders(g, conditions, p, c) <= copy.Keys
  }

  /** The gate `k` of the generation was given up to the child `c` of `p`, which is among `later`. */
  ghost predicate Released(g: Graph, conditions: Conditions, copy: map<Tag, Value>, p: Tag, c: Tag, k: Tag, later: set<Tag>) {
    && p in copy && p in g && c in g[p]
    && Passes(conditions, p, copy[p], c) == Ok(true)
    && k in Feeders(g, conditions, p, c) && c in later
  }

  /** Some gate of the generation has an edge to `k` that lets its result through. */
  ghost predicate Fires(g: Graph, conditions: Conditions, copy: map<Tag, Value>, k: Tag) {
    exists p :: p in copy && p in g && k in g[p] && Passes(conditions, p, copy[p], k) == Ok(true)
  }

  /**
   * How the generation after `gen` is made of it: every child ready on `gen` alone is in
   * it, and the parents it waited for left unless they were scheduled again; a gate with
   * successors that left was given up to a child now in it; every gate in it either stayed
   * with its result or was fired by a gate of `gen`.
   */
  ghost predicate Step(g: Graph, conditions: Conditions, gen: map<Tag, Value>, next: map<Tag, Value>) {
    && (forall p, c :: Ready(g, conditions, gen, p, c) ==> c in next)
    && (forall p, c, f :: Ready(g, conditions, gen, p, c) && f in Feeders(g, conditions, p, c) && f in next ==>
          Fires(g, conditions, gen, f))
    && (forall k :: k in gen && k in g && g[k] != {} && k !in next ==>
          exists p, c :: Released(g, conditions, gen, p, c, k, next.Keys))
    && (forall k :: k in next ==> (k in gen && k in g && g[k] != {} && next[k] == gen[k]) || Fires(g, conditions, gen, k))
  }

  /**
   * What offering `parent`'s result to the `children` done so far has done to the epoch
   * `s`, now `t`: no scheduled gate was dropped, each child ready on the generation alone
   * is scheduled with the parents it waited for gone from the generation, and every gate
   * that left the generation was given up to a scheduled child.
   */
  ghost predicate Offered(g: Graph, conditions: Conditions, copy: map<Tag, Value>, parent: Tag, children: set<Tag>, s: Epoch, t: Epoch) {
    && s.toBe.Keys <= t.toBe.Keys
    && (forall c :: c in children && Ready(g, conditions, copy, parent, c) ==>
          c in t.toBe && Feeders(g, conditions, parent, c) !! t.current.Keys)
    && (forall k :: k in s.current && k !in t.current ==> exists c :: Released(g, conditions, copy, parent, c, k, t.toBe.Keys))
  }

  /** Offering the result to one more child, as `ScheduleChild` does, extends what has been offered. */
  lemma OfferedStep(g: Graph, conditions: Conditions, copy: map<Tag, Value>, parent: Tag, children: set<Tag>, child: Tag,
                    s: Epoch, t: Epoch, u: Epoch)
    requires Offered(g, conditions, copy, parent, children, s, t)
    requires forall k :: k in u.current ==> k in t.current
    requires t.toBe.Keys <= u.toBe.Keys
    requires Ready(g, conditions, copy, parent, child) ==> child in u.toBe && Feeders(g, conditions, parent, child) !! u.current.Keys
    requires forall k :: k in t.current && k !in u.current ==> Released(g, conditions, copy, parent, child, k, u.toBe.Keys)
    ensures Offered(g, conditions, copy, parent, children + {child}, s, u)
  {
    forall k | k in s.current && k !in u.current
      ensures exists c :: Released(g, conditions, copy, parent, c, k, u.toBe.Keys)
    {
      if k in t.current {
        assert Released(g, conditions, copy, parent, child, k, u.toBe.Keys);
      } else {
        var c :| Released(g, conditions, copy, parent, c, k, t.toBe.Keys);
        assert Released(g, conditions, copy, parent, c, k, u.toBe.Keys);
      }
    }
  }

  /**
   * What expanding the gates `done` of the generation `copy` has done so far, now at `t`:
   * each child ready on the generation alone from one of them is scheduled with the parents
   * it waited for gone from the generation, and every gate with successors that left the
   * generation was given up to a scheduled child.
   */
  ghost predicate Expanded(g: Graph, conditions: Conditions, copy: map<Tag, Value>, done: set<Tag>, t: Epoch) {
    && (forall p, c :: p in done && Ready(g, conditions, copy, p, c) ==>
          c in t.toBe && Feeders(g, conditions, p, c) !! t.current.Keys)
    && (forall k :: k in copy && k in g && g[k] != {} && k !in t.current ==>
          exists p, c :: Released(g, conditions, copy, p, c, k, t.toBe.Keys))
  }

  /** Expanding one more gate with successors, as `ExpandParent` does, extends the expansion. */
  lemma ExpandedStep(g: Graph, conditions: Conditions, copy: map<Tag, Value>, done: set<Tag>, tag: Tag, t: Epoch, u: Epoch)
    requires tag in g
    requires Expanded(g, conditions, copy, done, t)
    requires Offered(g, conditions, copy, tag, g[tag], t, u)
    requires u.current.Keys <= t.current.Keys
    ensures Expanded(g, conditions, copy, done + {tag}, u)
  {
    forall k | k in copy && k in g && g[k] != {} && k !in u.current
      ensures exists p, c :: Released(g, conditions, copy, p, c, k, u.toBe.Keys)
    {
      if k in t.current {
        var c :| Released(g, conditions, copy, tag, c, k, u.toBe.Keys);
      } else {
        var p, c :| Released(g, conditions, copy, p, c, k, t.toBe.Keys);
        assert Released(g, conditions, copy, p, c, k, u.toBe.Keys);
      }
    }
  }

  /**
   * A generation fully expanded into `e`, with the scheduled gates run into `ran`, makes
   * the next generation `e.current + ran` as `Step` describes.
   */
  lemma StepOf(g: Graph, conditions: Conditions, gen: map<Tag, Value>, unsat0: map<Tag, Value>, e: Epoch, ran: map<Tag, Value>)
    requires Expanded(g, conditions, gen, gen.Keys, e) && Scheduled(g, conditions, gen, unsat0, e.toBe)
    requires forall k :: k in e.current ==> k in gen && e.current[k] == gen[k] && k in g && g[k] != {}
    requires ran.Keys == e.toBe.Keys
    ensures Step(g, conditions, gen, e.current + ran)
  {
    var next := e.current + ran;
    forall k | k in e.toBe
      ensures Fires(g, conditions, gen, k)
    {
      var p :| FiredFrom(g, conditions, gen, unsat0, p, k);
    }
    forall k | k in gen && k in g && g[k] != {} && k !in next
      ensures exists p, c :: Released(g, conditions, gen, p, c, k, next.Keys)
    {
      var p, c :| Released(g, conditions, gen, p, c, k, e.toBe.Keys);
      assert Released(g, conditions, gen, p, c, k, next.Keys);
    }
  }

  /** The results of the gates in `m` that have no successors. */
  function SinkResults(g: Graph, m: map<Tag, Value>): (r: map<Tag, Value>)
    ensures forall k :: k in r <==> k in m && k in g && g[k] == {}
    ensures forall k :: k in r ==> r[k] == m[k]
  {
    map k | k in m && k in g && g[k] == {} :: m[k]
  }

  /** Visiting one more gate of a generation adds its result to the sink results exactly when it is a sink. */
  lemma SinkResultsVisit(g: Graph, m: map<Tag, Value>, todo: set<Tag>, tag: Tag)
    requires tag in todo && tag in m && tag in g
    ensures SinkResults(g, m - (todo - {tag})) ==
      if g[tag] == {} then SinkResults(g, m - todo)[tag := m[tag]] else SinkResults(g, m - todo)
  {
    var before := SinkResults(g, m - todo);
    var after := SinkResults(g, m - (todo - {tag}));
    if g[tag] == {} {
      assert after.Keys == before.Keys + {tag};
    } else {
      assert after.Keys == before.Keys;
    }
  }

  /** Updating a union at a key updates its right operand there (how `VisitSink` stores a sink's result). */
  lemma UpdateUnion(a: map<Tag, Value>, b: map<Tag, Value>, k: Tag, v: Value)
    ensures (a + b)[k := v] == a + b[k := v]
  {
  }

  /** Every result in `results` is what running its gate on its feed in `feeds` returns. */
  ghost predicate Produced(run: (Tag, Value) -> Result<Value>, results: map<Tag, Value>, feeds: map<Tag, Value>) {
    forall k :: k in results ==> k in feeds && run(k, feeds[k]) == Ok(results[k])
  }

  /** Taking over results together with their feeds keeps every result accounted for. */
  lemma ProducedUnion(run: (Tag, Value) -> Result<Value>, a: map<Tag, Value>, fa: map<Tag, Value>, b: map<Tag, Value>, fb: map<Tag, Value>)
    requires Produced(run, a, fa) && Produced(run, b, fb) && b.Keys == fb.Keys
    ensures Produced(run, a + b, fa + fb)
  {
  }

  /** Results taken from a map whose results are accounted for are accounted for. */
  lemma ProducedSub(run: (Tag, Value) -> Result<Value>, a: map<Tag, Value>, b: map<Tag, Value>, feeds: map<Tag, Value>)
    requires Produced(run, b, feeds) && forall k :: k in a ==> k in b && a[k] == b[k]
    ensures Produced(run, a, feeds)
  {
  }

  /** Every child scheduled in a generation was fired from some parent in it. */
  ghost predicate Scheduled(g: Graph, conditions: Conditions, copy: map<Tag, Value>, unsat0: map<Tag, Value>, toBe: map<Tag, Value>) {
    forall c :: c in toBe ==> exists p :: FiredFrom(g, conditions, copy, unsat0, p, c)
  }

  /** The results held for each child come from before the generation or from the generation itself. */
  ghost predicate Held(unsatisfied: map<Tag, Value>, unsat0: map<Tag, Value>, copy: map<Tag, Value>) {
    forall c :: DictAt(unsatisfied, c).Keys <= DictAt(unsat0, c).Keys + copy.Keys
  }

  /**
   * The inner loop over a ready child's parents: each parent leaves the generation and its
   * result is merged into the child's feed, in the order of `parents`.
   */
  method GatherFeed(parents: seq<Tag>, results: map<Tag, Value>, generation: map<Tag, Value>)
    returns (current: map<Tag, Value>, feed: Result<map<string, Value>>)
    requires forall p :: p in parents ==> p in results
    ensures feed == FeedOf(parents, results)
    ensures feed.Ok? ==> forall k :: k in current <==> k in generation && k !in parents
    ensures forall k :: k in current ==> k in generation && current[k] == generation[k]
  {
    current := generation;
    var acc: map<string, Value> := map[];
    var i := 0;
    while i < |parents|
      invariant 0 <= i <= |parents|
      invariant forall k :: k in current <==> k in generation && k !in parents[..i]
      invariant forall k :: k in current ==> k in generation && current[k] == generation[k]
      invariant FeedOf(parents[..i], results) == Ok(acc)
    {
      assert parents[..i + 1][..i] == parents[..i];
      current := current - {parents[i]};
      var absorbed := Absorb(acc, results[parents[i]]);
      if absorbed.Err? {
        FeedOfStops(parents, i + 1, results);
        return current, Err(absorbed.error);
      }
      acc := absorbed.value;
      i := i + 1;
    }
    assert parents[..i] == parents;
    feed := Ok(acc);
  }

  /** `GateNetwork`: gates connected by edges, some of them conditional, with an optional epoch ceiling. */
  class GateNetwork {
    /** The gates' successor sets. */
    const graph: Digraph
    var conditions: Conditions
    var maxEpochs: Option<int>
    var epochCount: int

    ghost predicate Valid()
      reads this
    {
      maxEpochs.Some? ==> maxEpochs.value >= 1
    }

    constructor (graph: Digraph)
      ensures Valid() && this.graph == graph && conditions == map[] && maxEpochs == None && epochCount == 0
    {
      this.graph := graph;
      conditions := map[];
      maxEpochs := None;
      epochCount := 0;
    }

    /** `set_max_epochs`: a ceiling below 1 raises ValueError and leaves the old one. */
    method SetMaxEpochs(n: int) returns (r: Outcome)
      requires Valid()
      modifies this
      ensures Valid() && conditions == old(conditions) && epochCount == old(epochCount)
      ensures n < 1 ==> r == Raised(Error(ValueError, "The max epochs can't be less than 1.")) && maxEpochs == old(maxEpochs)
      ensures n >= 1 ==> r.Done? && maxEpochs == Some(n)
    {
      if n < 1 {
        return Raised(Error(ValueError, "The max epochs can't be less than 1."));
      }
      maxEpochs := Some(n);
      r := Done;
    }

    /** `add_edge` */
    method AddEdge(from: Tag, to: Tag) returns (r: Outcome)
      modifies graph
      ensures EdgeAdded(old(graph.adj), from, to).Ok? ==> r == Done && graph.adj == EdgeAdded(old(graph.adj), from, to).value
      ensures EdgeAdded(old(graph.adj), from, to).Err? ==>
        r == Raised(EdgeAdded(old(graph.adj), from, to).error) && graph.adj == old(graph.adj)
    {
      r := graph.AddEdge(from, to);
    }

    /** `remove_edge`: the conditions are not consulted. */
    method RemoveEdge(from: Tag, to: Tag) returns (r: Outcome)
      modifies graph
      ensures from in old(graph.adj) && to in old(graph.adj)[from] ==>
        r == Done && graph.adj == old(graph.adj)[from := old(graph.adj)[from] - {to}]
      ensures from !in old(graph.adj) ==> r == Raised(KeyErr(from)) && graph.adj == old(graph.adj)
      ensures from in old(graph.adj) && to !in old(graph.adj)[from] ==> r == Raised(KeyErr(to)) && graph.adj == old(graph.adj)
    {
      r := graph.RemoveEdge(from, to);
    }

    /**
     * `add_conditional_edge`: the condition is recorded, then the edge is added (the
     * condition stays recorded if that raises). A fallback gets the edge with the negated
     * evaluator over the same path and target.
     */
    method AddConditionalEdge(from: Tag, to: Tag, target: Value, path: string, evaluator: (Value, Value) -> bool,
                              fallback: Option<Tag>) returns (r: Outcome)
      requires Valid()
      modifies this, graph
      ensures Valid() && maxEpochs == old(maxEpochs) && epochCount == old(epochCount)
      ensures EdgeAdded(old(graph.adj), from, to).Err? ==>
        && r == Raised(EdgeAdded(old(graph.adj), from, to).error) && graph.adj == old(graph.adj)
        && conditions == old(conditions)[(from, to) := Condition(path, evaluator, target)]
      ensures fallback.None? && EdgeAdded(old(graph.adj), from, to).Ok? ==>
        && r.Done? && graph.adj == EdgeAdded(old(graph.adj), from, to).value
        && conditions == old(conditions)[(from, to) := Condition(path, evaluator, target)]
      ensures fallback.Some? && EdgeAdded(old(graph.adj), from, to).Ok? ==>
        var g := EdgeAdded(old(graph.adj), from, to).value;
        && conditions == old(conditions)[(from, to) := Condition(path, evaluator, target)]
                                        [(from, fallback.value) := Condition(path, Negated(evaluator), target)]
        && (EdgeAdded(g, from, fallback.value).Ok? ==> r.Done? && graph.adj == EdgeAdded(g, from, fallback.value).value)
        && (EdgeAdded(g, from, fallback.value).Err? ==> r == Raised(EdgeAdded(g, from, fallback.value).error) && graph.adj == g)
      decreases if fallback.Some? then 1 else 0
    {
      conditions := conditions[(from, to) := Condition(path, evaluator, target)];
      r := graph.AddEdge(from, to);
      if r.Raised? {
        return;
      }
      if fallback.Some? {
        r := AddConditionalEdge(from, fallback.value, target, path, Negated(evaluator), None);
      }
    }

    /** `remove_conditional_edge`: the condition goes if there is one, then the edge, which may raise. */
    method RemoveConditionalEdge(from: Tag, to: Tag) returns (r: Outcome)
      requires Valid()
      modifies this, graph
      ensures Valid() && maxEpochs == old(maxEpochs) && epochCount == old(epochCount)
      ensures conditions == old(conditions) - {(from, to)}
      ensures from in old(graph.adj) && to in old(graph.adj)[from] ==>
        r == Done && graph.adj == old(graph.adj)[from := old(graph.adj)[from] - {to}]
      ensures !(from in old(graph.adj) && to in old(graph.adj)[from]) ==> r.Raised? && graph.adj == old(graph.adj)
    {
      conditions := conditions - {(from, to)};
      r := graph.RemoveEdge(from, to);
    }

    /**
     * One child of one parent in a generation (the body of the inner `for` loop of
     * `_resolve_all`): a child the edge lets through is scheduled once every parent it
     * waits for has a result, with the merge of their results (`parents` is the order in
     * which they are merged) and with those parents leaving the generation; otherwise the
     * parent's result is held for it.
     */
    method ScheduleChild(child: Tag, parent: Tag, copy: map<Tag, Value>, ghost unsat0: map<Tag, Value>, s: Epoch)
      returns (r: Outcome, t: Epoch, parents: seq<Tag>)
      requires parent in copy && parent in graph.adj && child in graph.adj[parent]
      requires DictAt(s.unsatisfied, child).Keys <= DictAt(unsat0, child).Keys + copy.Keys
      ensures Passes(conditions, parent, copy[parent], child).Err? ==>
        r == Raised(Passes(conditions, parent, copy[parent], child).error)
      ensures Passes(conditions, parent, copy[parent], child) == Ok(false) ==> r.Done? && t == s
      ensures Passes(conditions, parent, copy[parent], child) == Ok(true) ==>
        var feeders := Feeders(graph.adj, conditions, parent, child);
        var descendants := DictAt(s.unsatisfied, child) + copy;
        && (!(feeders <= descendants.Keys) ==>
              r.Done? && t == s.(unsatisfied := s.unsatisfied[child := VDict(map[parent := copy[parent]])]))
        && (feeders <= descendants.Keys ==>
              && |parents| == |feeders| && (forall p :: p in parents <==> p in feeders)
              && (FeedOf(parents, descendants).Err? ==> r == Raised(FeedOf(parents, descendants).error))
              && (FeedOf(parents, descendants).Ok? ==> r.Done? && t == Epoch(s.current - feeders, s.unsatisfied - {child}, s.resolved,
                    s.toBe[child := Merged(Entry(s.toBe, child), FeedOf(parents, descendants).value)])))
      ensures r.Done? ==> t.resolved == s.resolved
      ensures r.Done? ==> forall k :: k in t.current ==> k in s.current && t.current[k] == s.current[k]
      ensures r.Done? ==> forall k :: k in s.current && k !in t.current ==> k in graph.adj && graph.adj[k] != {}
      ensures r.Done? ==> forall c :: c in t.toBe ==> c in s.toBe || FiredFrom(graph.adj, conditions, copy, unsat0, parent, c)
      ensures r.Done? ==> forall c :: DictAt(t.unsatisfied, c).Keys <= DictAt(s.unsatisfied, c).Keys + copy.Keys
      ensures r.Done? ==> s.toBe.Keys <= t.toBe.Keys
      ensures r.Done? && Ready(graph.adj, conditions, copy, parent, child) ==>
        child in t.toBe && Feeders(graph.adj, conditions, parent, child) !! t.current.Keys
      ensures r.Done? ==> forall k :: k in s.current && k !in t.current ==>
        Released(graph.adj, conditions, copy, parent, child, k, t.toBe.Keys)
    {
      parents := [];
      var passes := Passes(conditions, parent, copy[parent], child);
      if passes.Err? {
        return Raised(passes.error), s, parents;
      }
      if !passes.value {
        return Done, s, parents;
      }
      var feeders := Feeders(graph.adj, conditions, parent, child);
      var descendants := DictAt(s.unsatisfied, child) + copy;
      if !(feeders <= descendants.Keys) {
        t := s.(unsatisfied := s.unsatisfied[child := VDict(map[parent := copy[parent]])]);
        return Done, t, parents;
      }
      r, t, parents := ScheduleReady(child, parent, copy, unsat0, s);
    }

    /** A child whose edge lets it through and all of whose parents have a result is scheduled. */
    method ScheduleReady(child: Tag, parent: Tag, copy: map<Tag, Value>, ghost unsat0: map<Tag, Value>, s: Epoch)
      returns (r: Outcome, t: Epoch, parents: seq<Tag>)
      requires parent in copy && parent in graph.adj && child in graph.adj[parent]
      requires Passes(conditions, parent, copy[parent], child) == Ok(true)
      requires Feeders(graph.adj, conditions, parent, child) <= (DictAt(s.unsatisfied, child) + copy).Keys
      requires DictAt(s.unsatisfied, child).Keys <= DictAt(unsat0, child).Keys + copy.Keys
      ensures var feeders := Feeders(graph.adj, conditions, parent, child);
        var descendants := DictAt(s.unsatisfied, child) + copy;
        && |parents| == |feeders| && (forall p :: p in parents <==> p in feeders)
        && (FeedOf(parents, descendants).Err? ==> r == Raised(FeedOf(parents, descendants).error))
        && (FeedOf(parents, descendants).Ok? ==> r.Done? && t == Epoch(s.current - feeders, s.unsatisfied - {child}, s.resolved,
              s.toBe[child := Merged(Entry(s.toBe, child), FeedOf(parents, descendants).value)]))
      ensures r.Done? ==> forall k :: k in s.current && k !in t.current ==> k in graph.adj && graph.adj[k] != {}
      ensures r.Done? ==> forall c :: c in t.toBe ==> c in s.toBe || FiredFrom(graph.adj, conditions, copy, unsat0, parent, c)
    {
      var feeders := Feeders(graph.adj, conditions, parent, child);
      var descendants := DictAt(s.unsatisfied, child) + copy;
      parents := Enumerate(feeders);
      var current, feed := GatherFeed(parents, descendants, s.current);
      if feed.Err? {
        return Raised(feed.error), s, parents;
      }
      assert current == s.current - feeders;
      t := Epoch(current, s.unsatisfied - {child}, s.resolved, s.toBe[child := Merged(Entry(s.toBe, child), feed.value)]);
      assert FiredFrom(graph.adj, conditions, copy, unsat0, parent, child);
      r := Done;
    }

    /** All the children of one parent (the inner `for` loop over the gate's successors). */
    method ExpandParent(parent: Tag, copy: map<Tag, Value>, ghost unsat0: map<Tag, Value>, s: Epoch) returns (r: Outcome, t: Epoch)
      requires parent in copy && parent in graph.adj
      requires Held(s.unsatisfied, unsat0, copy)
      ensures (forall c :: c in graph.adj[parent] ==> Passes(conditions, parent, copy[parent], c) == Ok(false)) ==> r.Done? && t == s
      ensures r.Done? ==> t.resolved == s.resolved
      ensures r.Done? ==> forall k :: k in t.current ==> k in s.current && t.current[k] == s.current[k]
      ensures r.Done? ==> forall k :: k in s.current && k !in t.current ==> k in graph.adj && graph.adj[k] != {}
      ensures r.Done? && Scheduled(graph.adj, conditions, copy, unsat0, s.toBe) ==> Scheduled(graph.adj, conditions, copy, unsat0, t.toBe)
      ensures r.Done? ==> Held(t.unsatisfied, unsat0, copy)
      ensures r.Done? ==> Offered(graph.adj, conditions, copy, parent, graph.adj[parent], s, t)
    {
      ghost var blocked := forall c :: c in graph.adj[parent] ==> Passes(conditions, parent, copy[parent], c) == Ok(false);
      var children := graph.adj[parent];
      t := s;
      r := Done;
      while children != {}
        invariant children <= graph.adj[parent] && r.Done?
        invariant blocked ==> t == s
        invariant t.resolved == s.resolved
        invariant forall k :: k in t.current ==> k in s.current && t.current[k] == s.current[k]
        invariant forall k :: k in s.current && k !in t.current ==> k in graph.adj && graph.adj[k] != {}
        invariant forall c :: c in t.toBe ==> c in s.toBe || FiredFrom(graph.adj, conditions, copy, unsat0, parent, c)
        invariant forall c :: DictAt(t.unsatisfied, c).Keys <= DictAt(unsat0, c).Keys + copy.Keys
        invariant Offered(graph.adj, conditions, copy, parent, graph.adj[parent] - children, s, t)
        decreases children
      {
        var child :| child in children;
        var next, order;
        r, next, order := ScheduleChild(child, parent, copy, unsat0, t);
        if r.Raised? {
          return;
        }
        OfferedStep(graph.adj, conditions, copy, parent, graph.adj[parent] - children, child, s, t, next);
        assert graph.adj[parent] - (children - {child}) == (graph.adj[parent] - children) + {child};
        t := next;
        children := children - {child};
      }
    }

    /**
     * How far a generation has got with `todo` still to visit: the resolved results have
     * gained the visited sinks, which have left the generation, and the generation holds
     * only results from its copy, among them every sink still to visit.
     */
    ghost predicate Progress(s: Epoch, copy: map<Tag, Value>, todo: set<Tag>, t: Epoch)
      reads graph
    {
      && t.resolved == s.resolved + SinkResults(graph.adj, copy - todo)
      && (forall k :: k in t.current ==> k in copy && t.current[k] == copy[k])
      && (forall k :: k in todo && k in graph.adj && graph.adj[k] == {} ==> k in t.current)
      && (forall k :: k in copy && k !in todo && k in graph.adj && graph.adj[k] == {} ==> k !in t.current)
    }

    /** A sink of the generation moves from it to the resolved results. */
    method VisitSink(tag: Tag, copy: map<Tag, Value>, ghost todo: set<Tag>, ghost done: set<Tag>, s: Epoch, t: Epoch) returns (next: Epoch)
      requires tag in todo && todo <= copy.Keys <= graph.adj.Keys && graph.adj[tag] == {}
      requires Progress(s, copy, todo, t) && Expanded(graph.adj, conditions, copy, done, t)
      ensures Progress(s, copy, todo - {tag}, next) && Expanded(graph.adj, conditions, copy, done + {tag}, next)
      ensures next.toBe == t.toBe && next.unsatisfied == t.unsatisfied
      ensures next.current.Keys == t.current.Keys - {tag}
    {
      SinkResultsVisit(graph.adj, copy, todo, tag);
      UpdateUnion(s.resolved, SinkResults(graph.adj, copy - todo), tag, copy[tag]);
      next := t.(resolved := t.resolved[tag := t.current[tag]], current := t.current - {tag});
    }

    /** A gate with successors offers its result to its children. */
    method VisitParent(tag: Tag, copy: map<Tag, Value>, ghost unsat0: map<Tag, Value>, ghost todo: set<Tag>, s: Epoch, t: Epoch)
      returns (r: Outcome, next: Epoch)
      requires tag in todo && todo <= copy.Keys <= graph.adj.Keys && graph.adj[tag] != {}
      requires Progress(s, copy, todo, t) && Held(t.unsatisfied, unsat0, copy) && Scheduled(graph.adj, conditions, copy, unsat0, t.toBe)
      ensures r.Done? ==> Progress(s, copy, todo - {tag}, next)
      ensures r.Done? ==> Held(next.unsatisfied, unsat0, copy) && Scheduled(graph.adj, conditions, copy, unsat0, next.toBe)
      ensures r.Done? ==> Offered(graph.adj, conditions, copy, tag, graph.adj[tag], t, next)
      ensures r.Done? ==> next.current.Keys <= t.current.Keys
    {
      SinkResultsVisit(graph.adj, copy, todo, tag);
      r, next := ExpandParent(tag, copy, unsat0, t);
    }

    /**
     * One generation (the `for` loop over the copy of the current generation): sinks move
     * to the resolved results, and every other gate offers its result to its children.
     */
    method ExpandGeneration(copy: map<Tag, Value>, s: Epoch) returns (r: Outcome, t: Epoch)
      requires s.current == copy && s.toBe == map[] && copy.Keys <= graph.adj.Keys
      ensures r.Done? ==> t.resolved == s.resolved + SinkResults(graph.adj, copy)
      ensures r.Done? ==> forall k :: k in t.current ==> k in copy && t.current[k] == copy[k] && graph.adj[k] != {}
      ensures r.Done? ==> Scheduled(graph.adj, conditions, copy, s.unsatisfied, t.toBe)
      ensures r.Done? ==> Expanded(graph.adj, conditions, copy, copy.Keys, t)
    {
      ghost var unsat0 := s.unsatisfied;
      var todo := copy.Keys;
      ghost var done: set<Tag> := {};
      t := s;
      r := Done;
      assert copy - todo == map[];
      while todo != {}
        invariant todo <= copy.Keys
        invariant Progress(s, copy, todo, t)
        invariant Scheduled(graph.adj, conditions, copy, unsat0, t.toBe)
        invariant Held(t.unsatisfied, unsat0, copy)
        invariant t.current.Keys <= copy.Keys
        invariant (forall k :: k in done <==> k in copy && k !in todo) && Expanded(graph.adj, conditions, copy, done, t)
        decreases todo
      {
        var tag :| tag in todo;
        if graph.adj[tag] == {} {
          t := VisitSink(tag, copy, todo, done, s, t);
        } else {
          var next;
          r, next := VisitParent(tag, copy, unsat0, todo, s, t);
          if r.Raised? {
            return;
          }
          ExpandedStep(graph.adj, conditions, copy, done, tag, t, next);
          t := next;
        }
        todo, done := todo - {tag}, done + {tag};
      }
      assert copy - todo == copy && done == copy.Keys;
    }

    /** The gates scheduled for the next generation, each run on its feed; a tag that is not a gate raises KeyError. */
    method RunScheduled(toBe: map<Tag, Value>, run: (Tag, Value) -> Result<Value>) returns (r: Result<map<Tag, Value>>)
      ensures r.Ok? <==> forall k :: k in toBe ==> k in graph.adj && run(k, toBe[k]).Ok?
      ensures r.Ok? ==> r.value.Keys == toBe.Keys && forall k :: k in toBe ==> run(k, toBe[k]) == Ok(r.value[k])
      ensures r.Err? ==>
        exists k :: k in toBe && ((k !in graph.adj && r.error == KeyErr(k)) || (k in graph.adj && run(k, toBe[k]) == Err(r.error)))
    {
      var todo := toBe.Keys;
      var ran: map<Tag, Value> := map[];
      while todo != {}
        invariant todo <= toBe.Keys && ran.Keys == toBe.Keys - todo
        invariant forall k :: k in ran ==> k in graph.adj && run(k, toBe[k]) == Ok(ran[k])
        decreases todo
      {
        var tag :| tag in todo;
        if tag !in graph.adj {
          return Err(KeyErr(tag));
        }
        var result := run(tag, toBe[tag]);
        if result.Err? {
          return Err(result.error);
        }
        ran := ran[tag := result.value];
        todo := todo - {tag};
      }
      r := Ok(ran);
    }

    /**
     * One epoch of `_resolve_all`: the gates without successors are resolved, the others
     * schedule their children, and the scheduled gates are run to form the next generation.
     * The ghost maps give the feed each result was produced from.
     */
    method NextGeneration(s: Epoch, run: (Tag, Value) -> Result<Value>, ghost currentFeeds: map<Tag, Value>, ghost feeds: map<Tag, Value>)
      returns (r: Outcome, t: Epoch, ghost nextFeeds: map<Tag, Value>, ghost resolvedFeeds: map<Tag, Value>)
      requires s.current.Keys <= graph.adj.Keys && Produced(run, s.current, currentFeeds)
      requires forall k :: k in s.resolved ==> k in graph.adj && graph.adj[k] == {}
      requires Produced(run, s.resolved, feeds)
      ensures r.Done? ==> t.toBe == map[] && t.resolved == s.resolved + SinkResults(graph.adj, s.current)
      ensures r.Done? ==> t.current.Keys <= graph.adj.Keys && Produced(run, t.current, nextFeeds)
      ensures r.Done? ==> forall k :: k in t.resolved ==> k in graph.adj && graph.adj[k] == {}
      ensures r.Done? ==> Produced(run, t.resolved, resolvedFeeds)
      ensures r.Done? ==> Step(graph.adj, conditions, s.current, t.current)
    {
      resolvedFeeds, nextFeeds := feeds, currentFeeds;
      var copy := s.current;
      var outcome, next := ExpandGeneration(copy, s.(toBe := map[]));
      if outcome.Raised? {
        return outcome, s, nextFeeds, resolvedFeeds;
      }
      ghost var sinkFeeds := map k | k in SinkResults(graph.adj, copy) :: currentFeeds[k];
      ProducedSub(run, SinkResults(graph.adj, copy), copy, currentFeeds);
      ProducedUnion(run, s.resolved, feeds, SinkResults(graph.adj, copy), sinkFeeds);
      resolvedFeeds := feeds + sinkFeeds;
      var ran := RunScheduled(next.toBe, run);
      if ran.Err? {
        return Raised(ran.error), s, nextFeeds, resolvedFeeds;
      }
      ProducedSub(run, next.current, copy, currentFeeds);
      ProducedUnion(run, next.current, currentFeeds, ran.value, next.toBe);
      nextFeeds := currentFeeds + next.toBe;
      StepOf(graph.adj, conditions, copy, s.unsatisfied, next, ran.value);
      t := next.(current := next.current + ran.value, toBe := map[]);
      r := Done;
    }

    /**
     * `_resolve_all`: run the starting gate, then expand generation after generation until
     * a generation is empty or the epoch count reaches the ceiling, and return the results
     * of the gates without successors (`feeds` names, for each, the feed that produced its
     * result). The model stops after `fuel` epochs, which a ceiling no larger than `fuel`
     * never lets happen.
     */
    method ResolveAll(starting: Tag, initialFeed: Value, run: (Tag, Value) -> Result<Value>, fuel: nat)
      returns (r: Resolution, ghost feeds: map<Tag, Value>, ghost generations: seq<map<Tag, Value>>, ghost last: map<Tag, Value>)
      requires Valid()
      modifies this
      ensures Valid() && conditions == old(conditions) && maxEpochs == old(maxEpochs)
      ensures starting !in graph.adj ==> r == Failed(KeyErr(starting)) && epochCount == old(epochCount)
      ensures starting in graph.adj && run(starting, initialFeed).Err? ==>
        r == Failed(run(starting, initialFeed).error) && epochCount == old(epochCount)
      ensures r.Finished? ==> 1 <= epochCount && (maxEpochs.Some? ==> epochCount <= maxEpochs.value)
      ensures r.Finished? ==> forall k :: k in r.resolved ==>
        k in graph.adj && graph.adj[k] == {} && k in feeds && run(k, feeds[k]) == Ok(r.resolved[k])
      ensures r.OutOfFuel? ==> epochCount == fuel
      ensures maxEpochs.Some? && fuel >= maxEpochs.value ==> !r.OutOfFuel?
      ensures r.Finished? ==> Stopping(graph.adj, conditions, starting, run(starting, initialFeed), generations, last, epochCount, maxEpochs)
      ensures r.Finished? ==> r.resolved == Accumulated(graph.adj, generations)
    {
      feeds, generations, last := map[], [], map[];
      if starting !in graph.adj {
        return Failed(KeyErr(starting)), feeds, generations, last;
      }
      var first := run(starting, initialFeed);
      if first.Err? {
        return Failed(first.error), feeds, generations, last;
      }
      epochCount := 0;
      var epochs;
      r, epochs, feeds, generations, last := Epochs(starting, initialFeed, first.value, run, fuel);
      epochCount := epochs;
    }

    /**
     * The main loop of `_resolve_all` from the starting gate's result, with the number of
     * epochs it ran (`epoch_count`).
     */
    method Epochs(starting: Tag, initialFeed: Value, first: Value, run: (Tag, Value) -> Result<Value>, fuel: nat)
      returns (r: Resolution, epochs: nat, ghost feeds: map<Tag, Value>, ghost generations: seq<map<Tag, Value>>,
               ghost last: map<Tag, Value>)
      requires Valid() && starting in graph.adj && run(starting, initialFeed) == Ok(first)
      ensures epochs <= fuel
      ensures r.Finished? ==> 1 <= epochs && (maxEpochs.Some? ==> epochs <= maxEpochs.value)
      ensures r.Finished? ==> forall k :: k in r.resolved ==>
        k in graph.adj && graph.adj[k] == {} && k in feeds && run(k, feeds[k]) == Ok(r.resolved[k])
      ensures r.OutOfFuel? ==> epochs == fuel
      ensures maxEpochs.Some? && fuel >= maxEpochs.value ==> !r.OutOfFuel?
      ensures r.Finished? ==> Stopping(graph.adj, conditions, starting, Ok(first), generations, last, epochs, maxEpochs)
      ensures r.Finished? ==> r.resolved == Accumulated(graph.adj, generations)
    {
      feeds, generations, last := map[], [], map[];
      var s := Epoch(map[starting := first], map[], map[], map[]);
      ghost var currentFeeds := map[starting := initialFeed];
      assert starting in s.current;
      epochs := 0;
      while epochs < fuel
        invariant 0 <= epochs <= fuel && (maxEpochs.Some? ==> epochs < maxEpochs.value)
        invariant s.current.Keys <= graph.adj.Keys && Produced(run, s.current, currentFeeds)
        invariant forall k :: k in s.resolved ==> k in graph.adj && graph.adj[k] == {}
        invariant Produced(run, s.resolved, feeds)
        invariant Going(graph.adj, conditions, starting, Ok(first), generations, s.current, epochs) && |s.current| > 0
        invariant s.resolved == Accumulated(graph.adj, generations)
      {
        var outcome, next, nextFeeds, resolvedFeeds := NextGeneration(s, run, currentFeeds, feeds);
        if outcome.Raised? {
          return Failed(outcome.error), epochs, resolvedFeeds, generations, last;
        }
        AccumulatedStep(graph.adj, generations, s.current);
        GoingStep(graph.adj, conditions, starting, Ok(first), generations, s.current, epochs, next.current);
        generations := generations + [s.current];
        s, currentFeeds, feeds := next, nextFeeds, resolvedFeeds;
        epochs := epochs + 1;
        if |s.current| == 0 || (maxEpochs.Some? && maxEpochs.value == epochs) {
          return Finished(s.resolved), epochs, feeds, generations, s.current;
        }
      }
      r := OutOfFuel;
    }

    /**
     * `run`: the warning about isolated gates (`warned`) is due when some gate is isolated
     * and there is more than one gate; then the network is resolved.
     */
    method Run(starting: Tag, feed: Value, run: (Tag, Value) -> Result<Value>, fuel: nat)
      returns (warned: bool, r: Resolution, ghost feeds: map<Tag, Value>, ghost generations: seq<map<Tag, Value>>,
               ghost last: map<Tag, Value>)
      requires Valid()
      modifies this
      ensures Valid() && conditions == old(conditions) && maxEpochs == old(maxEpochs)
      ensures warned <==> Isolated(graph.adj) != {} && |graph.adj| > 1
      ensures r.Finished? ==> 1 <= epochCount && (maxEpochs.Some? ==> epochCount <= maxEpochs.value)
      ensures r.Finished? ==> forall k :: k in r.resolved ==>
        k in graph.adj && graph.adj[k] == {} && k in feeds && run(k, feeds[k]) == Ok(r.resolved[k])
      ensures maxEpochs.Some? && fuel >= maxEpochs.value ==> !r.OutOfFuel?
      ensures r.Finished? ==> Stopping(graph.adj, conditions, starting, run(starting, feed), generations, last, epochCount, maxEpochs)
      ensures r.Finished? ==> r.resolved == Accumulated(graph.adj, generations)
    {
      warned := Isolated(graph.adj) != {} && |graph.adj| > 1;
      r, feeds, generations, last := ResolveAll(starting, feed, run, fuel);
    }
  }

  /**
   * The results of the gates without successors, collected generation after generation; a
   * later generation's result for a gate replaces an earlier one.
   */
  function Accumulated(g: Graph, generations: seq<map<Tag, Value>>): map<Tag, Value> {
    if generations == [] then map[]
    else Accumulated(g, generations[..|generations| - 1]) + SinkResults(g, generations[|generations| - 1])
  }

  /**
   * A gate's result is collected exactly when some generation held it and it has no
   * successors; the value is the one from the last such generation.
   */
  lemma {:induction false} AccumulatedHas(g: Graph, generations: seq<map<Tag, Value>>, k: Tag)
    ensures k in Accumulated(g, generations) <==>
      exists e :: 0 <= e < |generations| && k in generations[e] && k in g && g[k] == {}
    ensures k in Accumulated(g, generations) ==>
      exists e :: 0 <= e < |generations| && k in generations[e] && Accumulated(g, generations)[k] == generations[e][k]
        && forall e' :: e < e' < |generations| ==> k !in generations[e']
  {
    if generations != [] {
      var init := generations[..|generations| - 1];
      var lastGen := generations[|generations| - 1];
      AccumulatedHas(g, init, k);
      assert forall e :: 0 <= e < |init| ==> init[e] == generations[e];
      if k in lastGen && k in g && g[k] == {} {
        assert k in generations[|generations| - 1];
      } else if k in Accumulated(g, generations) {
        var e :| 0 <= e < |init| && k in init[e] && Accumulated(g, init)[k] == init[e][k]
          && forall e' :: e < e' < |init| ==> k !in init[e'];
        assert Accumulated(g, generations)[k] == generations[e][k];
      }
    }
  }

  /** One more generation adds its sinks' results. */
  lemma AccumulatedStep(g: Graph, generations: seq<map<Tag, Value>>, m: map<Tag, Value>)
    ensures Accumulated(g, generations + [m]) == Accumulated(g, generations) + SinkResults(g, m)
  {
    assert (generations + [m])[..|generations|] == generations;
  }

  /** A non-empty generation followed by the next one `Step` makes of it keeps the epochs going. */
  lemma GoingStep(g: Graph, conditions: Conditions, starting: Tag, first: Result<Value>, generations: seq<map<Tag, Value>>,
                  current: map<Tag, Value>, epochs: nat, next: map<Tag, Value>)
    requires Going(g, conditions, starting, first, generations, current, epochs) && |current| > 0
    requires Step(g, conditions, current, next)
    ensures Going(g, conditions, starting, first, generations + [current], next, epochs + 1)
  {
    var before, after := generations + [current], generations + [current] + [next];
    assert forall e :: 0 <= e <= epochs ==> after[e] == before[e];
  }

  /**
   * The epochs so far, with `current` the generation to expand next: the first generation
   * holds the starting gate's result, every generation run was non-empty, and each
   * generation after it is the one `Step` makes of it.
   */
  ghost predicate Going(g: Graph, conditions: Conditions, starting: Tag, first: Result<Value>,
                        generations: seq<map<Tag, Value>>, current: map<Tag, Value>, epochs: nat)
  {
    && |generations| == epochs
    && first.Ok?
    && (epochs == 0 ==> current == map[starting := first.value])
    && (epochs > 0 ==> generations[0] == map[starting := first.value])
    && (forall e :: 0 <= e < epochs ==> |generations[e]| > 0)
    && (forall e :: 0 <= e < epochs ==> Step(g, conditions, generations[e], (generations + [current])[e + 1]))
  }

  /**
   * The stopping rule of `_resolve_all`: after at least one epoch, it stops at the first
   * generation `last` left empty, or when the epoch count reaches the ceiling.
   */
  ghost predicate Stopping(g: Graph, conditions: Conditions, starting: Tag, first: Result<Value>,
                           generations: seq<map<Tag, Value>>, last: map<Tag, Value>, epochs: nat, ceiling: Option<int>)
  {
    && epochs >= 1
    && Going(g, conditions, starting, first, generations, last, epochs)
    && (|last| == 0 || (ceiling.Some? && epochs == ceiling.value))
  }

  /** What `_resolve_all` ends with: the resolved results, an exception, or the model's epoch bound reached. */
  datatype Resolution = Finished(resolved: map<Tag, Value>) | Failed(error: Error) | OutOfFuel
}
