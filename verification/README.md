# mindstone, modelled in Dafny

mindstone is a Python framework for controlling devices over a network. A **worker** runs
on the device. It holds at most one **platform** of named **components** (pins, servos,
sensors). It also holds **routines** that call a component's method on a timer. It answers
**requests**: each request is a list of `(method, resource, kwargs)` items, and the answer is
a **response** envelope with timestamps, feedback and an error text.

A **controller** buffers request items through builder methods, for example
`add_component` or `get_observations`. It sends the buffered items through its **client**,
then passes the response to its **middleware**. The observer middleware picks values out
of the observations with dotted paths.

An **ensemble** holds controllers (its **units**), a registry of shared clients and a
registry of middleware. A **gate network** is an ensemble whose units are **gates**. A gate
is a controller with a procedure that runs on a feed. The network connects the gates with
directed edges, which may be conditional. It resolves the gates generation by generation,
from a starting gate down to the gates with no successors.

The model has one module per source file, plus two helper modules:

- `Common`: Python values, exceptions and `Result`/`Outcome`, and string helpers.
- `OrderedDict`: Python's insertion-ordered `dict`.
- `Graph` (`mindstone/_graph.py`): queries and mutations as functions of the adjacency
  mapping. Complete-path enumeration is a recursive specification, with Python's
  recursion limit as fuel. The `Digraph` class holds the methods that change the mapping
  in place.
- `Utils` (`mindstone/_utils.py`): `intersect_update`, `inner_merge` (the `NestedDict`
  class, which updates in place) and `get_nested`.
- `Connection` (`mindstone/connection.py`): `Request`/`Response`, the dataclass decoding of
  `_decode_transaction` with its field check, and `ClientABC.send_request` with the
  exchange as a parameter.
- `Worker` (`mindstone/worker.py`): `PlatformABC` and `Worker` as classes. Also the request
  routing, the feedback merge, the reply of `_on_receive`, and one pass of the routine
  timer.
- `Controller` (`mindstone/controller.py`): `ObserverMiddlewareABC`, `ControllerABC` and
  `ControllerEnsembleABC` as classes.
- `GateNetwork` (`mindstone/gatenetwork.py`): `Gate`, the conditional edges and
  `_resolve_all` as a loop over generations, split into methods per step.

## Model

| member | source | states |
|---|---|---|
| Graph.Edges | mindstone/_graph.py:57-58 | `(a, b)` is an edge exactly when `b` is a successor of node `a` |
| Graph.OutNeighbors | mindstone/_graph.py:72-73 | defined exactly for nodes (KeyError otherwise); the result is the set of edge targets from `k` |
| Graph.InNeighborsAreEdgeSources | mindstone/_graph.py:68-69 | the in-neighbours of `k` are exactly the sources of edges ending at `k` |
| Graph.OutDegree | mindstone/_graph.py:80-81 | for a node, the number of its successors; for any other key, KeyError naming it |
| Graph.IsSink | mindstone/_graph.py:121-122 | defined exactly for nodes; true iff no edge starts at `k` |
| Graph.IsolatedIffUntouched | mindstone/_graph.py:105-118 | a node is isolated iff no edge touches it, and every isolated node is a source |
| Graph.Pruned | mindstone/_graph.py:33-39 | removing a present node drops it and every edge touching it, and keeps the other nodes; a missing node leaves the graph unchanged |
| Graph.EdgeAdded | mindstone/_graph.py:42-45 | a self-loop raises ValueError with the source's message; a missing origin raises KeyError; on success the edge set gains exactly `(a, b)` and the nodes stay the same |
| Graph.EdgeAddedIdempotent | mindstone/_graph.py:42-45 | adding an edge changes only the origin's successors, and adding it twice equals adding it once |
| Graph.EdgesAddedKeepsNodes | mindstone/_graph.py:48-50 | adding a sequence of edges never adds or removes a node and never loses an edge |
| Graph.GatheredAdd | mindstone/_graph.py:144-147 | the paths gathered from a set of successors grow one successor at a time |
| Graph.PathsFromAdd | mindstone/_graph.py:98-102 | the complete paths from a set of start nodes grow one start node at a time |
| Graph.FollowsEdgesExtend | mindstone/_graph.py:144-145 | extending a path along an edge keeps it a path of the graph |
| Graph.ContributionShape | mindstone/_graph.py:135-147 | every path a recursive call hands back extends its prefix, follows edges, and ends at a sink or at the origin |
| Graph.CompletePathsShape | mindstone/_graph.py:92-95 | the start must be a node; a sink has no complete paths; each complete path has at least two nodes, starts at the key, follows edges and ends at a sink or back at the key |
| Graph.EdgelessIsAcyclic | mindstone/_graph.py:61-65 | a graph with no edges is acyclic |
| Graph.SingleSuccessor | mindstone/_graph.py:139-147 | a node with a single successor hands back exactly what that successor's call hands back |
| Graph.TwoCycleIsCyclic | mindstone/_graph.py:61-65 | a two-node cycle is reported as cyclic |
| Graph.IsAcyclicFalseHasCycle | mindstone/_graph.py:61-65 | a "cyclic" verdict is always backed by a closed walk along edges |
| Graph.AllCompletePathsShape | mindstone/_graph.py:98-102 | every path of `get_all_complete_paths` follows edges and ends at a sink or at its own first node |
| Graph.CycleAwayFromOriginNeverEnds | mindstone/_graph.py:135-147 | a cycle that does not pass through the origin makes enumeration run out of recursion |
| Graph.LoopRaises | mindstone/_graph.py:139-147 | every call inside such a cycle raises |
| Graph.Digraph.constructor | mindstone/_graph.py:10-12 | the digraph holds the given mapping |
| Graph.Digraph.AddNode | mindstone/_graph.py:29-30 | the key maps to the container, or to an empty set for `None`; the other nodes are untouched |
| Graph.Digraph.RemoveNode | mindstone/_graph.py:33-39 | the new mapping is `Pruned` of the old one |
| Graph.Digraph.AddEdge | mindstone/_graph.py:42-45 | the new mapping is `EdgeAdded`'s; on an exception the mapping is unchanged |
| Graph.Digraph.RemoveEdge | mindstone/_graph.py:53-54 | drops exactly the edge; a missing origin or a missing edge raises KeyError and changes nothing |
| Graph.Digraph.AddEdges | mindstone/_graph.py:48-50 | state and outcome equal `EdgesAdded` of the old mapping: edges are added in order until the first failure |
| Graph.Digraph.Merge | mindstone/_graph.py:125-132 | warns iff the key sets overlap; the incoming entries win; then the new edges are added as by `AddEdges` |
| Graph.Digraph.PathsUtil | mindstone/_graph.py:135-147 | raises iff the specification `Contribution` raises (KeyError or RecursionError); otherwise returns the path or accumulates exactly the specified paths |
| Graph.Digraph.VisitSuccessor | mindstone/_graph.py:145-147 | one successor: raises iff its `Via` call raises; otherwise the accumulator gains exactly what that successor hands back |
| Graph.Digraph.GetCompletePaths | mindstone/_graph.py:92-95 | raises iff `CompletePaths` raises; otherwise its paths are exactly the specified ones |
| Graph.Digraph.GetAllCompletePaths | mindstone/_graph.py:98-102 | raises iff `AllCompletePaths` raises; otherwise its paths are exactly the specified ones |
| Graph.Digraph.IsAcyclicScan | mindstone/_graph.py:61-65 | the scan's verdict equals `IsAcyclic`, and so does its raising |
| Utils.IntersectUpdate | mindstone/_utils.py:97-102 | the result has exactly the keys of `a` |
| Utils.IntersectUpdateIsRestrictedUpdate | mindstone/_utils.py:97-102 | shared keys take `b`'s value, keys only in `a` keep theirs, keys only in `b` are absent |
| Utils.IntersectUpdateIdempotent | mindstone/_utils.py:97-102 | applying the same update twice is applying it once; an empty update changes nothing |
| Utils.Merged | mindstone/_utils.py:114-117 | the mapping's entries win; an existing dictionary keeps its other keys; anything else is replaced by the mapping |
| Utils.MergedIdempotent | mindstone/_utils.py:114-117 | merging the same mapping twice equals merging it once |
| Utils.NestedDict.Get | mindstone/_utils.py:114 | `to_update.get(key, None)`: present exactly for stored keys |
| Utils.NestedDict.InnerMerge | mindstone/_utils.py:105-118 | the entry under `key` becomes `Merged` of the old entry, in place, and the same object is returned |
| Utils.NestedUtil | mindstone/_utils.py:135-140 | `None` or a missing key gives `None`; a one-key route gives the entry; only TypeError can be raised |
| Utils.GetNested | mindstone/_utils.py:121-132 | `None` gives `None`; only TypeError can be raised |
| Utils.NestedUtilAppend | mindstone/_utils.py:135-140 | following a route `r1 + r2` is following `r1`, then `r2` from where it ends |
| Utils.GetNestedComposes | mindstone/_utils.py:121-140 | `get_nested("a.rest")` is `get_nested("a")` followed by the rest of the path |
| Utils.GetNestedOneKey | mindstone/_utils.py:121-140 | a path without a delimiter looks up one key, with `None` for a missing one |
| Utils.NestedUtilNeverRaisesOnDicts | mindstone/_utils.py:135-140 | on values that are dictionaries all the way down, the lookup never raises |
| Common.StripRightPrefix | mindstone/controller.py:142 | stripping trailing white space keeps a prefix of the string |
| Common.SplitJoin | mindstone/_utils.py:132 | splitting at the first delimiter peels off the first key |
| OrderedDict.Put | mindstone/controller.py:163 | `d[k] = v`: the entry is set; a new key goes last, an existing key keeps its place |
| OrderedDict.Remove | mindstone/controller.py:165-167 | `del d[k]` under `if k in d`: the entry is gone, the other entries are kept, and the key order is the old one without `k` |
| OrderedDict.WithoutDistinct | mindstone/controller.py:165-167 | deleting a key keeps the key order free of duplicates |
| OrderedDict.WithoutAbsent | mindstone/controller.py:165-167 | deleting an absent key leaves the order as it was |
| OrderedDict.WithoutAt | mindstone/controller.py:165-167 | deleting the key at position `i` shifts the later keys down by one and keeps the earlier ones |
| OrderedDict.RemoveKeepsOrder | mindstone/controller.py:165-167 | deleting a key keeps the relative order of every pair of remaining keys |
| Connection.ObservationsAsWritten | mindstone/connection.py:86-91 | a response without feedback makes the accessor raise TypeError, and TypeError is all it can raise |
| Connection.Observations | mindstone/connection.py:86-91 | corrected accessor: a response without feedback has no observations |
| Connection.ObservationsAgree | mindstone/connection.py:86-91 | wherever the accessor as written succeeds, it agrees with the corrected one, and it succeeds exactly when `get` is absent or a dictionary |
| Connection.ErrorResponseBreaksObservations | mindstone/connection.py:86-91 | an error response as the worker sends it makes the accessor as written raise |
| Connection.UnsatisfiedAsWrittenFrom | mindstone/connection.py:187-192 | raises AttributeError iff some mistyped field has no default; otherwise reports exactly the mistyped fields with a non-`None` default |
| Connection.Unsatisfied | mindstone/connection.py:191-192 | corrected check: reports exactly the fields whose value is mistyped and whose default is not `None` |
| Connection.FieldNames | mindstone/connection.py:191 | the annotated field names, no more and no fewer |
| Connection.Construct | mindstone/connection.py:184 | `datacls(**decoded)` succeeds iff the keys are fields and every field without a default is given; every given value is kept |
| Connection.DecodeAsWritten | mindstone/connection.py:174-192 | not a dataclass raises ValueError; a non-dictionary raises AttributeError on `get`; a mistyped field without a default raises AttributeError; otherwise the corrected check's fields are reported, and with none the record is built |
| Connection.Decode | mindstone/connection.py:174-184 | not a dataclass raises ValueError; unsatisfied fields raise the ValueError naming them; with none unsatisfied the record is `Construct` of the schema and the mapping; success gives every field a value |
| Connection.SatisfiedFieldsTyped | mindstone/connection.py:181-184 | when no field is unsatisfied, every field with a non-`None` default is present with the right type |
| Connection.DecodeRequest | mindstone/connection.py:162-163 | fails exactly as dataclass decoding of `Request` fails, with its error; success means a dictionary of exactly `sent_time` and `items`, whose values the request holds |
| Connection.DecodeResponse | mindstone/connection.py:166-167 | fails exactly as dataclass decoding of `Response` fails, with its error; success means a dictionary of `Response` fields with both timestamps, whose values the response holds, `None` for a missing feedback or error |
| Connection.DecodedResponseFields | mindstone/connection.py:174-184 | a decoded `Response` record holds the four fields, with the timestamps as floats |
| Connection.SendRequest | mindstone/connection.py:107-112 | fails exactly as decoding the reply to the envelope fails, with its error; otherwise the reply is a dictionary of `Response` fields whose values the response holds |
| Connection.RequestEnvelopeRoundTrip | mindstone/connection.py:107-112 | the envelope `send_request` builds decodes, on the worker's side, to a `Request` with the same time and items, and both decoders agree on it |
| Connection.AsWrittenNeverReportsFields | mindstone/connection.py:181-192 | as written, decoding a `Request` or `Response` never raises the ValueError that names fields |
| Connection.NoValuedDefaultsReportNothing | mindstone/connection.py:191-192 | with no field defaulting to a value other than `None`, the check as written reports nothing |
| Connection.MissingSentTimeAsWritten | mindstone/connection.py:187-192 | a request without `sent_time` raises AttributeError, as written |
| Connection.MissingSentTimeReported | mindstone/connection.py:181-183 | corrected: the same request raises the ValueError naming `sent_time` |
| Worker.KeywordsOf | mindstone/worker.py:89-91 | `**setup` accepts `None` (no arguments) or a mapping; anything else raises TypeError |
| Worker.Platform.constructor | mindstone/worker.py:454-456 | a platform of the given component types starts empty |
| Worker.Platform.RemoveComponent | mindstone/worker.py:438-441 | a present component is cleaned up and deleted; a missing key is ignored |
| Worker.Platform.AddComponent | mindstone/worker.py:422-436 | an existing component is removed first; an unknown type or a missing required field raises RuntimeError; on success the component is stored last |
| Worker.CallOf | mindstone/worker.py:96-102 | a missing component raises RuntimeError; a missing method raises AttributeError naming the class; otherwise the call succeeds iff the keyword arguments are a mapping, and it is exactly that component, method and arguments |
| Worker.Calls | mindstone/worker.py:188-196 | the routines run in a pass call only existing components and methods, at most one call per routine |
| Worker.CallsStep | mindstone/worker.py:188-196 | one more routine appends exactly its call when `CallOf` allows it, and nothing otherwise |
| Worker.Selection | mindstone/worker.py:105 | a falsy selection selects everything; a list selects exactly its strings; errors are TypeError |
| Worker.Observed | mindstone/worker.py:106-107 | exactly the readable, selected components, each with its `read()` |
| Worker.ObservedSelectionNarrows | mindstone/worker.py:104-107 | a selection only removes the unselected components from the observations |
| Worker.StrList | mindstone/worker.py:109-113 | the keys as strings, in order |
| Worker.Returned | mindstone/worker.py:66-102 | a `None`-returning operation gives `None`, or its exception |
| Worker.StrArg | mindstone/worker.py:66-102 | a string argument is accepted exactly when it is a string |
| Worker.Bind | mindstone/worker.py:162 | a handler call succeeds iff every required keyword is given and no unknown one is |
| Worker.Route | mindstone/worker.py:154-162 | an item routes only to a handler in the table, which it encodes; the wrong arity raises the unpacking ValueError; an unknown method raises RuntimeError |
| Worker.FeedbackOf | mindstone/worker.py:163-164 | the feedback maps each method to a dictionary |
| Worker.FeedbackOfLast | mindstone/worker.py:163-164 | the feedback under a method and resource is exactly the last non-`None` result for them |
| Worker.FeedbackOfMethods | mindstone/worker.py:163-164 | a method appears in the feedback only when one of its handlers returned something |
| Worker.Reply | mindstone/worker.py:127-150 | the reply raises exactly on an exception `_on_receive` does not catch, and then it is that exception |
| Worker.ReplyDecodes | mindstone/worker.py:127-150 | every reply decodes on the controller's side, with the worker's timestamps; an error occurred iff processing raised; the decoder as written gives the same result |
| Worker.ResponseFieldsDecode | mindstone/connection.py:174-184 | a mapping with both timestamps decodes as a `Response`, keeping its values and defaulting the rest to `None` |
| Worker.ResponseSatisfied | mindstone/connection.py:187-192 | both timestamps present means no field is unsatisfied |
| Worker.ResponseAsWrittenAgrees | mindstone/connection.py:174-192 | with both timestamps present, the decoder as written builds exactly what the corrected decoder builds |
| Connection.ResponseFieldNames | mindstone/connection.py:71-76 | the fields of `Response` |
| Worker.ResponseConstructsOk | mindstone/connection.py:184 | `Response(**m)` with both timestamps and no foreign key succeeds and has all four fields |
| Worker.ResponseDefaults | mindstone/connection.py:184 | the feedback and error fields of that `Response` are the given values, `None` otherwise |
| Worker.ResponseConstructs | mindstone/connection.py:184 | `Response(**m)` succeeds and keeps the given values |
| Worker.NextFlag | mindstone/worker.py:193-197 | the flag is set when the routine fires, cleared whenever the phase is non-zero, and set while it stays zero |
| Worker.TickStep | mindstone/worker.py:181-197 | one more routine extends the flags and the runs of the pass |
| Worker.TickFlagsAt | mindstone/worker.py:181-197 | after a pass each routine's flag says whether its phase was zero; other flags are kept |
| Worker.FiredIff | mindstone/worker.py:193-195 | a routine runs in a pass iff its phase is zero and its flag was not set |
| Worker.RefireNeedsNonZero | mindstone/worker.py:188-197 | a routine runs again only after a pass with a non-zero phase |
| Worker.Worker.constructor | mindstone/worker.py:37-63 | no platform and no routines |
| Worker.Worker.AddPlatform | mindstone/worker.py:66-71 | a known type gives a new, empty platform; an unknown one raises KeyError and keeps the old one |
| Worker.Worker.RemovePlatform | mindstone/worker.py:73-74 | no platform afterwards; the routines are kept |
| Worker.Worker.AddRoutine | mindstone/worker.py:76-83 | with no platform, raises TypeError; an unknown executor raises RuntimeError; otherwise the routine is stored under its key |
| Worker.Worker.RemoveRoutine | mindstone/worker.py:85-87 | the key is removed; a missing key is ignored |
| Worker.Worker.AddComponent | mindstone/worker.py:89-91 | with no platform, raises AttributeError; a setup that is not a mapping or repeats the parameters raises TypeError and changes nothing; otherwise the old component is removed and the new one stored iff it can be built (`ComponentAdded`) |
| Worker.Worker.RemoveComponent | mindstone/worker.py:93-94 | with no platform, raises AttributeError; otherwise the platform removes the component |
| Worker.Worker.ExecuteComponent | mindstone/worker.py:96-102 | with no platform, raises TypeError; otherwise exactly the call `CallOf` describes, or its error |
| Worker.Worker.GetObservations | mindstone/worker.py:104-107 | a bad selection raises TypeError; with no platform, AttributeError; otherwise the observations are exactly `Observed` |
| Worker.Worker.GetComponents | mindstone/worker.py:109-110 | the component keys in order; with no platform, TypeError |
| Worker.Worker.GetRoutines | mindstone/worker.py:112-113 | the routine keys in order |
| Worker.Worker.Handle | mindstone/worker.py:158-162 | a bad binding raises TypeError; only `get` handlers return a value, and a `get` or a bad binding changes nothing; a bound `get` returns `GetResult`, what `get_observations`, `get_components` or `get_routines` give on the worker; every other handler has exactly the effect `Changed` gives it |
| Worker.Worker.Change | mindstone/worker.py:38-51 | each `add`, `remove` and `execute` handler has exactly its effect on the platform, routines and components (`Changed`: the same cases as the handlers it calls), keeps the worker valid and returns `None` |
| Worker.GotStep | mindstone/worker.py:152-165 | one more handled item extends `GotInOrder` when a leading `get` item answered `Got` |
| Worker.GetsOnlyPrefix | mindstone/worker.py:152-165 | a prefix of a run of `get` items is a run of `get` items |
| Worker.RoutedStep | mindstone/worker.py:152-165 | a record for the next item, routed from that item and with a result only for a `get`, keeps every record routed from the item at its position |
| Worker.Worker.HandleItem | mindstone/worker.py:154-164 | a routing error propagates; a handled item routes to its record; only `get` returns values, and a bound `get` item answers `GetResult`; the worker changes as `ItemEffect` says: the routed handler's effect, or nothing |
| Worker.Worker.ProcessItem | mindstone/worker.py:154-164 | one item: a routed record, the response becomes the `FeedbackOf` the records with it appended, and the worker changes as `ItemEffect` says; a bound `get` item keeps the components and routines and answers `Got` on them |
| Worker.Worker.ProcessRequestItems | mindstone/worker.py:152-165 | items are handled in order until the first exception; success iff all handled, and then the feedback is `FeedbackOf` the handled items; each `get` item of a leading run of `get` items answers `Got` on the worker as the request found it (`GotInOrder`), and a request of `get` items only leaves the components and routines as they were |
| Worker.Worker.OnReceive | mindstone/worker.py:127-150 | the reply is `Reply` of decoding and processing; an undecodable request processes nothing; the leading `get` items answer `Got` on the worker as the request found it |
| Worker.Worker.RunRoutine | mindstone/worker.py:180-196 | one routine of a pass: its flag becomes the next `TickFlags` entry; if it is due, its call (`CallOf`) is appended to the platform's calls; an exception means it was due and its call was made (`Stopped`) |
| Worker.Worker.RunRoutinesPass | mindstone/worker.py:167-197 | the new flags are `TickFlags`; the platform's calls gain exactly `Calls` of the `Fired` routines, in order; an exception comes from some due routine `j`, after the calls of the routines up to `j`; components are unchanged |
| Controller.Client.constructor | mindstone/connection.py:94-97 | a client holds its target address and its exchange |
| Controller.Reported | mindstone/controller.py:62-67 | an observable is reported iff its path resolves to a value that is not `None`, and then with its tag, parameter and transformed value |
| Controller.ObserveAllExact | mindstone/controller.py:58-67 | when no lookup raises, the reported observations are exactly those of the observables that resolve |
| Controller.ObserveNothing | mindstone/controller.py:58-67 | no observations means nothing is reported |
| Controller.ObservedPrefixStops | mindstone/controller.py:61-67 | the first lookup that raises ends the walk over the observables |
| Controller.ObserverMiddleware.constructor | mindstone/controller.py:42-43 | no observables and nothing observed |
| Controller.ObserverMiddleware.AddObservable | mindstone/controller.py:49-51 | stores the path `component.field` and the transformer under `(tag, parameter)` |
| Controller.ObserverMiddleware.RemoveObservable | mindstone/controller.py:53-56 | removes the key; a missing key is ignored |
| Controller.ObserverMiddleware.ObserveOne | mindstone/controller.py:61-67 | one observable more: the recorded observations and the outcome are those of the walk over one more key |
| Controller.ObserverMiddleware.Handle | mindstone/controller.py:58-67 | the observables are kept; the observations gain exactly `Walk`'s reports (none when the response has no observations), and the outcome is `Walk`'s |
| Controller.HandleAmong | mindstone/controller.py:177-178 | one middleware handles the response: its snapshot is replaced by its walk's result and every other middleware's snapshot is kept |
| Controller.Repeat | mindstone/controller.py:177-178 | `n` copies of a walk's reports: `n` times as long, starting with the walk |
| Controller.RepeatMore | mindstone/controller.py:177-178 | one more copy appends the walk's reports |
| Controller.LabelCountZero | mindstone/controller.py:177-178 | a middleware is named by no label handled so far iff its count is zero |
| Controller.LabelCountMore | mindstone/controller.py:177-178 | one more label raises the count of exactly the middleware it names |
| Controller.HandledOnceMore | mindstone/controller.py:177-178 | a middleware that handled the response `n` times and handles it again has handled it `n + 1` times |
| Controller.HandledStep | mindstone/controller.py:177-178 | handling one more label adds one walk to the middleware it names and keeps every other middleware as it was |
| Controller.WalkOutcomesStep | mindstone/controller.py:177-178 | after walks that all finished, one more walk's outcome is the outcome of the labels so far |
| Controller.ItemValues | mindstone/connection.py:107-110 | each item travels as its three-element list, in order |
| Controller.ItemRoutes | mindstone/controller.py:138-142 | an item for a handler in the worker's table routes on the worker to that handler with its kwargs |
| Controller.PlainNormalized | mindstone/controller.py:142 | lower-casing and stripping leaves a plain method or resource name unchanged |
| Controller.Guard | mindstone/controller.py:189-191 | a builder succeeds iff the platform is set and a client is set |
| Controller.CheckResourceType | mindstone/controller.py:194-196 | succeeds iff the key is available; otherwise raises ValueError "<title> key '<key>' is invalid. Try: " followed by every available key exactly once, joined by ", " |
| Controller.Controller.constructor | mindstone/controller.py:73-80 | no middleware, no buffered items, no platform type |
| Controller.Controller.AddRequestItem | mindstone/controller.py:138-142 | without a client, raises NotImplementedError and buffers nothing; otherwise appends the item with method and resource lower-cased and stripped |
| Controller.Controller.PlatformCheck | mindstone/controller.py:189-191 | succeeds iff a platform type is set; otherwise raises NotImplementedError |
| Controller.Controller.Build | mindstone/controller.py:99-136 | the platform check, then the item is buffered iff `Guard` allows it |
| Controller.Controller.AddPlatform | mindstone/controller.py:94-97 | an unknown type raises ValueError and buffers nothing; otherwise records the type and buffers `add platform` |
| Controller.Controller.AddComponent | mindstone/controller.py:99-102 | the platform check, then the component-type check, then buffers `add component` |
| Controller.Controller.AddRoutine | mindstone/controller.py:104-108 | the platform check, then buffers `add routine` with all five arguments |
| Controller.Controller.RemovePlatform | mindstone/controller.py:110-112 | buffers `remove platform` whenever a client is set, with no platform check |
| Controller.Controller.RemoveComponent | mindstone/controller.py:114-116 | the platform check, then buffers `remove component` |
| Controller.Controller.RemoveRoutine | mindstone/controller.py:118-120 | the platform check, then buffers `remove routine` |
| Controller.Controller.ExecuteComponent | mindstone/controller.py:122-124 | the platform check, then buffers `execute component` |
| Controller.Controller.GetObservations | mindstone/controller.py:126-128 | the platform check, then buffers `get observations` with the selection |
| Controller.Controller.GetComponents | mindstone/controller.py:130-132 | the platform check, then buffers `get components` |
| Controller.Controller.GetRoutines | mindstone/controller.py:134-136 | the platform check, then buffers `get routines` |
| Controller.Controller.SetClient | mindstone/controller.py:148-156 | an unknown connection type raises KeyError and keeps the old client; otherwise sets a new client for the target |
| Controller.Controller.RemoveClient | mindstone/controller.py:158-160 | no client afterwards; nothing else changes |
| Controller.Controller.AddMiddleware | mindstone/controller.py:162-163 | the middleware is stored under its name |
| Controller.Controller.RemoveMiddleware | mindstone/controller.py:165-167 | the name is removed; a missing name is ignored |
| Controller.Controller.Dispatch | mindstone/controller.py:177-178 | the middleware handle the response in insertion order until the first that raises; each middleware keeps its observables and gains its walk's reports once per label naming it (shared objects included); the walks before the last finished; the outcome is the last walk's, and `Done` means every label was handled |
| Controller.Controller.HandleLabel | mindstone/controller.py:177-178 | one label more: the handled labels grow by it, the `Dispatch` invariant (`Reporting`, `WalkOutcomes`) is kept |
| Controller.Controller.SendRequest | mindstone/controller.py:169-180 | without a client, raises NotImplementedError and changes nothing; a reply that does not decode raises its error, keeps the buffer and reaches no middleware; otherwise the buffer is cleared and the response is delivered to the middleware as `Dispatch` states, returning it unless a middleware raised |
| Controller.Controller.Receive | mindstone/controller.py:175-180 | the buffer is cleared, then the response is delivered as `Dispatch` states; the response is returned unless a middleware raised |
| Controller.Controller.ClearBuffer | mindstone/controller.py:175 | the buffer becomes empty; nothing else changes, the middleware included |
| Controller.Ensemble.constructor | mindstone/controller.py:210-217 | no units, clients or middleware |
| Controller.Ensemble.SetUnit | mindstone/controller.py:201-207 | the controller is stored under its tag |
| Controller.Ensemble.GetUnit | mindstone/controller.py:228-229 | the unit under the tag, or KeyError |
| Controller.Ensemble.AddClient | mindstone/controller.py:231-233 | an unknown type raises KeyError; otherwise a new client is registered under the name |
| Controller.Ensemble.AddClientToUnit | mindstone/controller.py:248-249 | the name's KeyError comes first (the right-hand side `self.clients[name]` is evaluated before the target), then the tag's; otherwise the unit shares the registered client |
| Controller.Ensemble.RemoveClientFromUnit | mindstone/controller.py:251-253 | the tag's KeyError comes first, then the name's; the unit drops the client only if it holds that very object |
| Controller.Ensemble.RemoveClient | mindstone/controller.py:235-241 | no unit holds the removed client afterwards, the others keep theirs, and the registry loses the name |
| Controller.Ensemble.AddMiddleware | mindstone/controller.py:255-256 | the middleware is registered under its name |
| Controller.Ensemble.AddMiddlewareToUnit | mindstone/controller.py:270-271 | the tag's KeyError comes first, then the name's; otherwise the unit shares the registered object |
| Controller.Ensemble.RemoveMiddlewareFromUnit | mindstone/controller.py:273-275 | succeeds iff the unit exists, holds the name and the name is registered; then drops it only when it is that very object |
| Controller.Ensemble.SweepUnit | mindstone/controller.py:261-262 | one unit more: on success no unit up to this tag holds the registered object; a unit lacking the label raises KeyError |
| Controller.Ensemble.RemoveMiddleware | mindstone/controller.py:258-264 | an unregistered name changes nothing; on success no unit holds the registered object and the registry loses the name; a failure is the KeyError of a unit lacking the name, after which the registry is kept; any unit lacking the name makes it fail |
| GateNetwork.NormalizedAt | mindstone/controller.py:142 | each buffered item is the lower-cased, stripped form of the item at the same position |
| GateNetwork.NormalizedStep | mindstone/controller.py:142 | buffering one more item appends its normalized form |
| GateNetwork.Gate.constructor | mindstone/gatenetwork.py:31-34 | the gate's unit and procedure, and no feed |
| GateNetwork.Gate.QueueOne | mindstone/controller.py:138-142 | one call: with a client the item is appended in normalized form; without one it raises and nothing changes |
| GateNetwork.Gate.Queue | mindstone/controller.py:138-142 | the procedure's items are buffered in order; without a client the first one raises and nothing is buffered |
| GateNetwork.Gate.Run | mindstone/gatenetwork.py:39-52 | the feed is set while the procedure runs and cleared after it; an exception leaves it set; a request is sent iff a client is set and items are buffered; with a client and a successful procedure the result is the procedure's unless sending raised; a sent request is the buffer with the procedure's items, and the buffer is emptied and the middleware handles the reply as `Delivered` says, or the transport error is the result |
| GateNetwork.Inject | mindstone/gatenetwork.py:247-251 | `None` or a dictionary gains the handler's entries, which win; any other feed has no `update` |
| GateNetwork.InjectIdempotent | mindstone/gatenetwork.py:247-251 | injecting the same entries twice is injecting them once |
| GateNetwork.PyEquals | mindstone/gatenetwork.py:136 | the default evaluator `a == b`: equal values are equal, and non-numbers are equal only when identical |
| GateNetwork.Negated | mindstone/gatenetwork.py:155 | the fallback's evaluator is the pointwise negation |
| GateNetwork.Passes | mindstone/gatenetwork.py:184-193 | an unconditional edge passes; a non-dictionary result fails a conditional edge; a passing one means the evaluator holds at the path |
| GateNetwork.FallbackExactlyOne | mindstone/gatenetwork.py:150-155 | with a fallback, exactly one of the edge and its fallback passes on a dictionary result, and neither on anything else |
| GateNetwork.Absorb | mindstone/gatenetwork.py:205 | `dict.update` accepts exactly the absorbable values, and the feed gains a dictionary's entries |
| GateNetwork.FeedOfDefined | mindstone/gatenetwork.py:202-205 | the merged feed exists iff every parent's result is one `dict.update` accepts |
| GateNetwork.FeedOfKeys | mindstone/gatenetwork.py:202-205 | the merged feed's keys are exactly the keys of the parents' dictionaries |
| GateNetwork.FeedOfLastWins | mindstone/gatenetwork.py:202-205 | each key holds the value of the last parent that supplies it |
| GateNetwork.FeedOfMerges | mindstone/gatenetwork.py:201-205 | the merged feed succeeds iff every parent result is absorbable; its keys are exactly theirs; each key holds the last parent's value |
| GateNetwork.FeedOfStops | mindstone/gatenetwork.py:202-205 | the first parent result that cannot be absorbed ends the merge |
| GateNetwork.Feeders | mindstone/gatenetwork.py:185-196 | a conditional edge needs only its parent; otherwise exactly the in-neighbours over unconditional edges |
| GateNetwork.SinkResults | mindstone/gatenetwork.py:178-179 | exactly the generation's gates without successors, with their results |
| GateNetwork.SinkResultsVisit | mindstone/gatenetwork.py:178-180 | visiting one more gate adds its result if it is a sink |
| GateNetwork.ProducedUnion | mindstone/gatenetwork.py:212-213 | results the procedures produced stay produced when generations merge |
| GateNetwork.ProducedSub | mindstone/gatenetwork.py:212-213 | any part of produced results is produced |
| GateNetwork.GateNetwork.constructor | mindstone/gatenetwork.py:56-64 | no conditions, no ceiling, no epochs |
| GateNetwork.GateNetwork.SetMaxEpochs | mindstone/gatenetwork.py:85-88 | `n < 1` raises ValueError with the source's message and keeps the ceiling; otherwise sets it |
| GateNetwork.GateNetwork.AddEdge | mindstone/gatenetwork.py:124-125 | the graph's `EdgeAdded` |
| GateNetwork.GateNetwork.RemoveEdge | mindstone/gatenetwork.py:127-128 | the graph's `remove_edge` |
| GateNetwork.GateNetwork.AddConditionalEdge | mindstone/gatenetwork.py:135-155 | the condition is recorded even when the edge then fails; a fallback gets the negated condition and its own edge |
| GateNetwork.GateNetwork.RemoveConditionalEdge | mindstone/gatenetwork.py:157-161 | the condition is dropped, and then the edge is removed or KeyError raised |
| GateNetwork.GatherFeed | mindstone/gatenetwork.py:200-204 | the parents leave the generation and the feed is their results merged in order (`FeedOf`), raising where `dict.update` does |
| GateNetwork.GateNetwork.ScheduleReady | mindstone/gatenetwork.py:197-205 | a child whose parents all have results is scheduled with their merged results, and those parents leave the generation |
| GateNetwork.GateNetwork.ScheduleChild | mindstone/gatenetwork.py:184-210 | a failing condition changes nothing; a passing one either schedules the child with its parents' merged results or holds the parent back; a child ready on the generation alone is always scheduled, and a gate leaves the generation only as one of its parents |
| GateNetwork.GateNetwork.ExpandParent | mindstone/gatenetwork.py:182-210 | every child is visited; nothing is resolved; only parents with successors leave the generation; each scheduled child was fired by a passing edge, and conversely (`Offered`) each child ready on the generation alone is scheduled with the parents it waited for gone, and every gate that left was given up to a scheduled child |
| GateNetwork.GateNetwork.VisitSink | mindstone/gatenetwork.py:178-180 | a gate without successors moves from the generation to the resolved gates, and only it leaves the generation |
| GateNetwork.GateNetwork.VisitParent | mindstone/gatenetwork.py:181-210 | a gate with successors keeps the scheduling invariants, schedules its ready children and gives up its leaving parents as `Offered` says, and the generation only shrinks |
| GateNetwork.GateNetwork.ExpandGeneration | mindstone/gatenetwork.py:172-210 | the sinks are resolved; the rest of the generation is kept only for gates with successors; each scheduled gate was fired by a passing edge; every child ready on the generation alone is scheduled with its awaited parents gone, and every gate with successors that left was given up to a scheduled child (`Expanded`) |
| GateNetwork.GateNetwork.RunScheduled | mindstone/gatenetwork.py:212-213 | every scheduled gate runs on its feed; the first exception propagates |
| GateNetwork.GateNetwork.NextGeneration | mindstone/gatenetwork.py:172-212 | one epoch: the sinks join the resolved gates, every result of the next generation was produced by its gate from its feed, and the next generation is made of the current one as `Step` says: ready children join, the parents they waited for leave unless fired again, a leaving gate was given up to a child now present, and every gate present stayed with its result or was fired |
| GateNetwork.GateNetwork.ResolveAll | mindstone/gatenetwork.py:163-217 | an unknown start raises KeyError; a finished run went through generations starting with the start's result, each the `Step` of the one before and the last empty unless the ceiling was reached (`Stopping`), never beyond the ceiling; its resolved gates are the sinks those generations held (`Accumulated`), each holding its procedure's result |
| GateNetwork.GateNetwork.Epochs | mindstone/gatenetwork.py:166-216 | the epoch loop from the start's result: a finished run's generations follow each other by `Step` and stop as `Stopping` says within the ceiling, and its resolved gates are sinks holding their procedures' results, exactly the `Accumulated` sinks of its generations |
| GateNetwork.AccumulatedHas | mindstone/gatenetwork.py:178-180 | a gate is resolved iff it is a sink some generation held, and its resolved result is the one from the last generation that held it |
| GateNetwork.AccumulatedStep | mindstone/gatenetwork.py:178-180 | one more generation adds exactly its sinks to the resolved gates |
| GateNetwork.GoingStep | mindstone/gatenetwork.py:166-217 | one more non-empty generation, followed by its `Step`, continues the loop |
| GateNetwork.OfferedStep | mindstone/gatenetwork.py:182-210 | offering a parent's result to one more child as `ScheduleChild` does extends what `Offered` states |
| GateNetwork.ExpandedStep | mindstone/gatenetwork.py:172-210 | expanding one more gate with successors as `ExpandParent` does extends what `Expanded` states |
| GateNetwork.StepOf | mindstone/gatenetwork.py:172-212 | a fully expanded generation, with its scheduled gates run, makes the next generation as `Step` says |
| GateNetwork.UpdateUnion | mindstone/gatenetwork.py:178-180 | storing a sink's result into the resolved map is storing it into the sinks collected this generation (used by `VisitSink`) |
| GateNetwork.GateNetwork.Run | mindstone/gatenetwork.py:75-83 | warns iff some gate is isolated and there is more than one gate; then resolves as `ResolveAll`, with its `Stopping` rule and `Accumulated` results |

## Left out

- `PlatformABC.cleanup` (mindstone/worker.py:446-448) deletes from the dictionary while iterating over it. It is not modelled.
- The HTTP procedure (`HTTPRequesProcedure`), msgpack encoding, sockets, TCP serving, the clock, printing and threads are not modelled. Times are parameters (`now`, `receivedTime`, `sentTime`). A client's socket exchange is a function `exchange` from the request envelope to the decoded reply.
- Float arithmetic is not modelled. The routine phase `round((now - start) % interval)` is a parameter `phase`.
- Warnings are not emitted. `Merge` and `GateNetwork.Run` return a `warned` flag instead.
- `Graph.Digraph.GetCompletePaths`: the `sort` option and the order of paths are not modelled. Paths are a set, and the contract is about membership.
- `Utils.GetNested`: only the default delimiter `.` is modelled.
- `Common.Lower` and `Common.Strip` handle ASCII letters and ASCII white space only.
- Iteration over Python sets and dictionaries treated as unordered: its order is arbitrary in the model, except where insertion order is observable (`OrderedDict`).
- Aliasing of nested dictionaries and feeds is not modelled: values are immutable. In particular, `InjectionHandler` updating the gate's feed in place is modelled as building a new value.
- The convenience loops `request_items_from_iterable`, `add_clients_from_dict`, `add_middleware_from_dict`, `add_gates_from_dict`, `add_gate`, `remove_gate` and `gate_procedure` are not modelled. `add_edges_from_iterable` is `Graph.Digraph.AddEdges`.
- `GateNetwork.Gate.Run`: a procedure is a function of the feed that yields its request items and its result. The source passes the gate (or nothing) to the procedure, and a procedure that calls other controller methods is not modelled.
- `GateNetwork.Absorb`: `dict.update` on a non-empty list is modelled as always raising TypeError, even for a list of key-value pairs.
- `GateNetwork.PyEquals`: numbers nested inside lists or dictionaries compare by structure, not across `int`/`float`.
- `GateNetwork.GateNetwork.ResolveAll` takes a `fuel` bound on the number of epochs, because a network with no ceiling may loop forever. It reports `OutOfFuel` when the bound is hit. A gate is run through `run(tag, feed)`, which stands for `Gate.run`.
- `GateNetwork.GateNetwork.ResolveAll` keeps the resolved gates in a map, so their insertion order is dropped.
- The ensemble methods that `GateNetwork` inherits live in `Controller.Ensemble`. The network's graph and its gates are held separately.
- A `Gate` holds a `Controller` (composition), where the source inherits from `ControllerABC`.
- Middleware other than the observer middleware is not modelled, and neither is `plot`.
- `Connection.DecodeRequest` decodes with the corrected `Connection.Decode` from the first Findings row. As written, a request missing `sent_time` raises AttributeError instead of the ValueError naming the field. `Connection.DecodeAsWritten` and `Connection.MissingSentTimeAsWritten` state that behaviour, and `Connection.RequestEnvelopeRoundTrip` shows that the two decoders agree on the envelope the client builds.
- `Connection.DecodeResponse` decodes with the corrected `Connection.Decode` as well: a reply missing a timestamp raises ValueError in the model and AttributeError as written. `Worker.ReplyDecodes` shows that the two decoders agree on every reply the worker builds.
- `Connection.SendRequest` decodes the reply through `Connection.DecodeResponse`, with the same difference for a reply missing a timestamp.
- `Worker.Worker.OnReceive` decodes the request through `Connection.DecodeRequest`. As written, a request missing `sent_time` raises AttributeError, which `_on_receive` does not catch, so no reply is sent; the model sends an error reply naming the field.
- `Controller.Controller.SendRequest` decodes the reply through `Connection.SendRequest`, with the same difference for a reply missing a timestamp.
- `Controller.ObserverMiddleware.Handle` reads observations through the corrected `Connection.Observations` from the second Findings row. As written, every response carrying an error (feedback `None`) makes the middleware raise TypeError, which ends `Controller.Controller.Dispatch` at the first observer; `Connection.ErrorResponseBreaksObservations` states that behaviour.
- `Worker.Worker.ProcessRequestItems` does not state the combined effect of the whole batch on the worker; the effect is stated item by item, by `Worker.Worker.ProcessItem` through `ItemEffect`. The values of `get` items are stated on the worker as the request found it only for the leading run of `get` items (`GotInOrder`); a `get` after a changing item is stated per item, by `Worker.Worker.ProcessItem` on the worker as that item found it.
- `Worker.Worker.OnReceive` likewise states the effect of a request on the worker only item by item, through `Worker.Worker.ProcessItem`, and the values of `get` items as `Worker.Worker.ProcessRequestItems` does.
- `Worker.Worker.RunRoutinesPass` takes each routine's phase as a parameter (`phase`), so the ZeroDivisionError that `round((now - start) % interval)` raises for an interval of 0, and the TypeError for an interval that is not a number (mindstone/worker.py:187), are not modelled.
- `Controller.Reported`, `Controller.ObserverMiddleware.Handle`: a transformer is a total function `Value -> Value`, so an exception raised by a user-supplied transformer (mindstone/controller.py:67) is not modelled.
- `GateNetwork.Passes`: an evaluator is a total function `(Value, Value) -> bool`, so an exception raised by a user-supplied evaluator (mindstone/gatenetwork.py:193) is not modelled; only the path lookup may raise.
- `GateNetwork.GateNetwork.ExpandGeneration`, `GateNetwork.GateNetwork.NextGeneration`: the feed each scheduled gate runs on is stated per scheduling, by `GateNetwork.GateNetwork.ScheduleReady`, not across a generation; a child scheduled through results held from an earlier generation is stated only as fired by a passing edge (`FiredFrom`, `Fires`).
- `Worker.StrArg` refuses arguments that are not strings with TypeError. Python accepts any hashable value as a key, type, executor or method name and fails later, if at all, so a non-string key that the source would store is not modelled.
- Exception messages that Python builds from `repr` of values (unhashable types, formatted lists) are approximated by the exception class and a fixed text.

## Findings

| source | as written | input that shows it | evidently intended | confidence | as-written member | corrected member |
|---|---|---|---|---|---|---|
| mindstone/connection.py:191-192 | `getattr(datacls, field)` raises AttributeError for a dataclass field without a default, so the ValueError at line 183 that names the missing fields is never raised for `Request` or `Response` | a request mapping `{"items": []}` with no `sent_time` | raise ValueError "Received does not satisfy the following fields: sent_time" | not executed | Connection.MissingSentTimeAsWritten | Connection.MissingSentTimeReported |
| mindstone/connection.py:86-91 | `self.feedback["get"]` on a response whose feedback is `None` raises TypeError, and only KeyError is caught; every error response from the worker has no feedback, so an observer middleware then crashes `send_request` | `Response(t0, t1, feedback=None, error="RuntimeError: ...")` | return `None` (no observations) | not executed | Connection.ErrorResponseBreaksObservations | Connection.Observations |
