/**
 * The messages exchanged between a controller and a worker (mindstone/connection.py):
 * the `Request` and `Response` records, the schema check that turns a decoded mapping
 * into one of them, the `Response` accessors and the envelope a client sends.
 *
 * Messages are taken after msgpack decoding, as `Value`s; the wire encoding itself is
 * not part of this model.
 */
module Connection {
  import opened Common

  // Records and their schemas
  // ~~~~~~~~~~~~~~~~~~~~~~~~~

  /** The annotated field types that `isinstance` checks against. */
  datatype FieldType = FloatField | ListField | DictField | StrField

  /** A dataclass field's default: none at all, `None`, or some other value. */
  datatype FieldDefault = NoDefault | DefaultNone | DefaultTo(v: Value)

  datatype Field = Field(name: string, ty: FieldType, default: FieldDefault)

  /** A record class as `_decode_transaction` sees it: its name, whether it is a dataclass, its annotated fields in order. */
  datatype Schema = Schema(className: string, isDataclass: bool, fields: seq<Field>)

  /** `isinstance(v, t)`; msgpack gives integers as `int`, which is not a `float`. */
  predicate IsInstance(v: Value, t: FieldType) {
    match t
    case FloatField => v.VFloat?
    case ListField => v.VList?
    case DictField => v.VDict?
    case StrField => v.VStr?
  }

  /** The name Python gives a value's type in its messages. */
  function TypeName(v: Value): string {
    match v
    case VNone => "NoneType"
    case VBool(_) => "bool"
    case VInt(_) => "int"
    case VFloat(_) => "float"
    case VStr(_) => "str"
    case VList(_) => "list"
    case VDict(_) => "dict"
  }

  /** `mapping.get(name, None)` */
  function Lookup(m: map<string, Value>, name: string): Value {
    if name in m then m[name] else VNone
  }

  /** `Request`: when it was sent and the items it carries. */
  datatype Request = Request(sentTime: real, items: seq<Value>)

  /** `Response`: timestamps, the feedback map and the error text (each possibly `None`). */
  datatype Response = Response(receivedTime: real, sentTime: real, feedback: Value, error: Value)

  const RequestSchema: Schema :=
    Schema("Request", true, [Field("sent_time", FloatField, NoDefault), Field("items", ListField, NoDefault)])

  const ResponseSchema: Schema :=
    Schema("Response", true, [
      Field("received_time", FloatField, NoDefault), Field("sent_time", FloatField, NoDefault),
      Field("feedback", DictField, DefaultNone), Field("error", StrField, DefaultNone)])

  // Response accessors
  // ~~~~~~~~~~~~~~~~~~

  /** `error_occurred`: the response carries an error. */
  predicate ErrorOccurred(r: Response) {
    r.error != VNone
  }

  /**
   * `observations` as written: `feedback["get"]["observations"]`, `None` when a key is
   * missing. Only KeyError is caught, so a feedback that is `None` (every error response)
   * or a non-dictionary under "get" raises TypeError.
   */
  function ObservationsAsWritten(r: Response): (o: Result<Value>)
    ensures r.feedback == VNone ==> o.Err? && o.error.kind == TypeError
    ensures o.Err? ==> o.error.kind == TypeError
  {
    match r.feedback
    case VDict(d) =>
      if "get" !in d then Ok(VNone)
      else (
        match d["get"]
        case VDict(g) => Ok(if "observations" in g then g["observations"] else VNone)
        case other => Err(Error(TypeError, "'" + TypeName(other) + "' object is not subscriptable"))
      )
    case other => Err(Error(TypeError, "'" + TypeName(other) + "' object is not subscriptable"))
  }

  /** `observations` as intended: the observations map, or `None` when there is none to find. */
  function Observations(r: Response): (o: Value)
    ensures r.feedback == VNone ==> o == VNone
  {
    match r.feedback
    case VDict(d) =>
      if "get" in d && d["get"].VDict? && "observations" in d["get"].entries then d["get"].entries["observations"]
      else VNone
    case _ => VNone
  }

  /** Where the code as written succeeds, the corrected accessor gives the same answer. */
  lemma ObservationsAgree(r: Response)
    ensures ObservationsAsWritten(r).Ok? ==> ObservationsAsWritten(r).value == Observations(r)
    ensures r.feedback.VDict? ==>
      (ObservationsAsWritten(r).Ok? <==> "get" !in r.feedback.entries || r.feedback.entries["get"].VDict?)
  {
  }

  /** An error response, as the worker sends it, makes the accessor as written raise. */
  lemma ErrorResponseBreaksObservations(t0: real, t1: real, message: string)
    ensures ObservationsAsWritten(Response(t0, t1, VNone, VStr(message))).Err?
    ensures Observations(Response(t0, t1, VNone, VStr(message))) == VNone
  {
  }

  // Schema check
  // ~~~~~~~~~~~~

  /**
   * The generator of `_get_unsatisfied_fields` as written, over the fields in order: a
   * field is reported when its value is mistyped and `getattr(datacls, field)` is not
   * `None`; for a field with no default that `getattr` raises AttributeError.
   */
  function UnsatisfiedAsWrittenFrom(className: string, fields: seq<Field>, m: map<string, Value>): (r: Result<seq<string>>)
    ensures r.Err? ==> r.error.kind == AttributeError
    ensures r.Err? <==> exists i :: 0 <= i < |fields| && Misfit(fields[i], m) && fields[i].default.NoDefault?
    ensures r.Ok? ==> forall n :: n in r.value <==>
      exists i :: 0 <= i < |fields| && fields[i].name == n && Misfit(fields[i], m) && fields[i].default.DefaultTo?
  {
    if fields == [] then Ok([])
    else
      var f := fields[0];
      var rest := UnsatisfiedAsWrittenFrom(className, fields[1..], m);
      if !Misfit(f, m) || f.default.DefaultNone? then rest
      else if f.default.NoDefault? then
        Err(NoAttribute(className, f.name))
      else (match rest
        case Ok(ns) => Ok([f.name] + ns)
        case Err(e) => Err(e))
  }

  /** The AttributeError of `getattr` on a class without the attribute. */
  function NoAttribute(className: string, attribute: string): Error {
    Error(AttributeError, "type object '" + className + "' has no attribute '" + attribute + "'")
  }

  /** The field's decoded value fails the type check. */
  predicate Misfit(f: Field, m: map<string, Value>) {
    !IsInstance(Lookup(m, f.name), f.ty)
  }

  /**
   * The unsatisfied fields as intended: every field whose decoded value is mistyped and
   * whose default is not `None`, a field without a default included, in field order.
   */
  function Unsatisfied(fields: seq<Field>, m: map<string, Value>): (r: seq<string>)
    ensures forall n :: n in r <==>
      exists i :: 0 <= i < |fields| && fields[i].name == n && Misfit(fields[i], m) && !fields[i].default.DefaultNone?
  {
    if fields == [] then []
    else if Misfit(fields[0], m) && !fields[0].default.DefaultNone? then [fields[0].name] + Unsatisfied(fields[1..], m)
    else Unsatisfied(fields[1..], m)
  }

  const NotADataclass: Error := Error(ValueError, "Object provided is not a dataclass.")

  function UnsatisfiedError(names: seq<string>): Error {
    Error(ValueError, "Received does not satisfy the following fields: " + Join(names, ", "))
  }

  /** The names of the fields. */
  function FieldNames(fields: seq<Field>): (r: set<string>)
    ensures forall i :: 0 <= i < |fields| ==> fields[i].name in r
    ensures forall n :: n in r ==> exists i :: 0 <= i < |fields| && fields[i].name == n
  {
    set i | 0 <= i < |fields| :: fields[i].name
  }

  /** Every field without a default is given a value. */
  predicate HasRequired(fields: seq<Field>, m: map<string, Value>) {
    forall i :: 0 <= i < |fields| && fields[i].default.NoDefault? ==> fields[i].name in m
  }

  /**
   * `datacls(**decoded)`: every key must name a field; a field that is missing takes its
   * default, and a field with none is a missing argument.
   */
  function Construct(s: Schema, m: map<string, Value>): (r: Result<map<string, Value>>)
    ensures r.Ok? <==> m.Keys <= FieldNames(s.fields) && HasRequired(s.fields, m)
    ensures r.Ok? ==> r.value.Keys == FieldNames(s.fields)
    ensures r.Ok? ==> forall n :: n in m ==> r.value[n] == m[n]
    ensures r.Err? ==> r.error.kind == TypeError
  {
    if !(m.Keys <= FieldNames(s.fields)) then
      Err(Error(TypeError, "__init__() got an unexpected keyword argument"))
    else if !HasRequired(s.fields, m) then
      Err(Error(TypeError, "__init__() missing a required positional argument"))
    else
      Ok(map n | n in FieldNames(s.fields) :: if n in m then m[n] else DefaultOf(s.fields, n))
  }

  /** The default of the first field named `n` (`None` when it has none). */
  function DefaultOf(fields: seq<Field>, n: string): Value {
    if fields == [] then VNone
    else if fields[0].name == n then (match fields[0].default case DefaultTo(v) => v case _ => VNone)
    else DefaultOf(fields[1..], n)
  }

  /**
   * `_decode_transaction(datacls, ...)` as written, on the decoded message: a schema that
   * is not a dataclass is refused, a non-mapping has no `get`, the unsatisfied fields of
   * the code as written are reported, and the record is built.
   */
  function DecodeAsWritten(s: Schema, decoded: Value): (r: Result<map<string, Value>>)
    ensures !s.isDataclass ==> r == Err(NotADataclass)
    ensures s.isDataclass && !decoded.VDict? ==> r == Err(NoAttributeOn(TypeName(decoded), "get"))
    ensures s.isDataclass && decoded.VDict?
      && (exists i :: 0 <= i < |s.fields| && Misfit(s.fields[i], decoded.entries) && s.fields[i].default.NoDefault?)
      ==> r.Err? && r.error.kind == AttributeError
    ensures s.isDataclass && decoded.VDict? && UnsatisfiedAsWrittenFrom(s.className, s.fields, decoded.entries).Ok? ==>
      var names := UnsatisfiedAsWrittenFrom(s.className, s.fields, decoded.entries).value;
      && (|names| > 0 ==> r == Err(UnsatisfiedError(names)))
      && (|names| == 0 ==> r == Construct(s, decoded.entries))
  {
    if !s.isDataclass then Err(NotADataclass)
    else match decoded
      case VDict(m) =>
        (match UnsatisfiedAsWrittenFrom(s.className, s.fields, m)
         case Err(e) => Err(e)
         case Ok(names) => if |names| > 0 then Err(UnsatisfiedError(names)) else Construct(s, m))
      case other => Err(NoAttributeOn(TypeName(other), "get"))
  }

  /**
   * `_decode_transaction(datacls, ...)` as intended: every field that is mistyped and has
   * no `None` default is reported in one ValueError, and otherwise the record is built.
   */
  function Decode(s: Schema, decoded: Value): (r: Result<map<string, Value>>)
    ensures !s.isDataclass ==> r == Err(NotADataclass)
    ensures s.isDataclass && !decoded.VDict? ==> r == Err(NoAttributeOn(TypeName(decoded), "get"))
    ensures s.isDataclass && decoded.VDict? && |Unsatisfied(s.fields, decoded.entries)| > 0 ==>
      r == Err(UnsatisfiedError(Unsatisfied(s.fields, decoded.entries)))
    ensures s.isDataclass && decoded.VDict? && Unsatisfied(s.fields, decoded.entries) == [] ==>
      r == Construct(s, decoded.entries)
    ensures r.Ok? ==> forall i :: 0 <= i < |s.fields| ==>
      s.fields[i].name in r.value && (!s.fields[i].default.DefaultNone? ==> IsInstance(r.value[s.fields[i].name], s.fields[i].ty))
  {
    if !s.isDataclass then Err(NotADataclass)
    else match decoded
      case VDict(m) =>
        var names := Unsatisfied(s.fields, m);
        if |names| > 0 then Err(UnsatisfiedError(names))
        else
          SatisfiedFieldsTyped(s.fields, m);
          Construct(s, m)
      case other => Err(NoAttributeOn(TypeName(other), "get"))
  }

  /** With nothing unsatisfied, every field without a `None` default is present and well typed. */
  lemma SatisfiedFieldsTyped(fields: seq<Field>, m: map<string, Value>)
    requires Unsatisfied(fields, m) == []
    ensures forall i :: 0 <= i < |fields| && !fields[i].default.DefaultNone? ==>
      fields[i].name in m && IsInstance(m[fields[i].name], fields[i].ty)
  {
    forall i | 0 <= i < |fields| && !fields[i].default.DefaultNone?
      ensures fields[i].name in m && IsInstance(m[fields[i].name], fields[i].ty)
    {
      assert fields[i].name !in Unsatisfied(fields, m);
    }
  }

  /** `decode_request` */
  function DecodeRequest(decoded: Value): (r: Result<Request>)
    ensures r.Err? <==> Decode(RequestSchema, decoded).Err?
    ensures r.Err? ==> r.error == Decode(RequestSchema, decoded).error
    ensures r.Ok? ==>
      && decoded.VDict? && decoded.entries.Keys == {"sent_time", "items"}
      && decoded.entries["sent_time"] == VFloat(r.value.sentTime) && decoded.entries["items"] == VList(r.value.items)
  {
    match Decode(RequestSchema, decoded)
    case Err(e) => Err(e)
    case Ok(rec) =>
      assert RequestSchema.fields[0].name == "sent_time" && RequestSchema.fields[1].name == "items";
      Ok(Request(rec["sent_time"].f, rec["items"].items))
  }

  /** `decode_response` */
  function DecodeResponse(decoded: Value): (r: Result<Response>)
    ensures r.Err? <==> Decode(ResponseSchema, decoded).Err?
    ensures r.Err? ==> r.error == Decode(ResponseSchema, decoded).error
    ensures r.Ok? ==>
      && decoded.VDict? && decoded.entries.Keys <= {"received_time", "sent_time", "feedback", "error"}
      && "received_time" in decoded.entries && "sent_time" in decoded.entries
      && decoded.entries["received_time"] == VFloat(r.value.receivedTime) && decoded.entries["sent_time"] == VFloat(r.value.sentTime)
      && r.value.feedback == Lookup(decoded.entries, "feedback") && r.value.error == Lookup(decoded.entries, "error")
  {
    match Decode(ResponseSchema, decoded)
    case Err(e) => Err(e)
    case Ok(rec) =>
      DecodedResponseFields(decoded);
      Ok(Response(rec["received_time"].f, rec["sent_time"].f, rec["feedback"], rec["error"]))
  }

  lemma ResponseFieldNames()
    ensures FieldNames(ResponseSchema.fields) == {"received_time", "sent_time", "feedback", "error"}
  {
    var fields := ResponseSchema.fields;
    var names := {"received_time", "sent_time", "feedback", "error"};
    assert fields[0].name == "received_time" && fields[1].name == "sent_time";
    assert fields[2].name == "feedback" && fields[3].name == "error";
    forall n | n in FieldNames(fields) ensures n in names {
      var i :| 0 <= i < |fields| && fields[i].name == n;
    }
  }

  /** A decoded `Response` takes the timestamps and, or else `None`, the feedback and error given. */
  lemma DecodedResponseFields(decoded: Value)
    requires Decode(ResponseSchema, decoded).Ok?
    ensures decoded.VDict? && decoded.entries.Keys <= {"received_time", "sent_time", "feedback", "error"}
    ensures "received_time" in decoded.entries && "sent_time" in decoded.entries
    ensures var rec := Decode(ResponseSchema, decoded).value;
      && rec.Keys == {"received_time", "sent_time", "feedback", "error"}
      && rec["received_time"].VFloat? && decoded.entries["received_time"] == rec["received_time"]
      && rec["sent_time"].VFloat? && decoded.entries["sent_time"] == rec["sent_time"]
      && rec["feedback"] == Lookup(decoded.entries, "feedback") && rec["error"] == Lookup(decoded.entries, "error")
  {
    var fields := ResponseSchema.fields;
    var m := decoded.entries;
    ResponseFieldNames();
    var rec := Construct(ResponseSchema, m);
    assert Decode(ResponseSchema, decoded) == rec;
    assert HasRequired(fields, m) by {
      assert fields[0].default.NoDefault? && fields[1].default.NoDefault?;
    }
    assert "received_time" in m && "sent_time" in m by {
      assert fields[0].name == "received_time" && fields[1].name == "sent_time";
    }
    assert rec.value["received_time"].VFloat? && rec.value["sent_time"].VFloat? by {
      assert fields[0].name == "received_time" && !fields[0].default.DefaultNone?;
      assert fields[1].name == "sent_time" && !fields[1].default.DefaultNone?;
    }
    assert DefaultOf(fields, "feedback") == VNone && DefaultOf(fields, "error") == VNone;
  }

  // The request envelope
  // ~~~~~~~~~~~~~~~~~~~~

  /** The mapping `ClientABC.send_request` encodes: the send time and the items. */
  function RequestEnvelope(sentTime: real, items: seq<Value>): Value {
    VDict(map["sent_time" := VFloat(sentTime), "items" := VList(items)])
  }

  /**
   * `ClientABC.send_request`: wrap the items with the current time, exchange the envelope
   * once with the worker (`exchange` stands for `send_and_receive` with the encoding), and
   * decode the reply as a response.
   */
  function SendRequest(items: seq<Value>, now: real, exchange: Value -> Value): (r: Result<Response>)
    ensures r.Err? <==> Decode(ResponseSchema, exchange(RequestEnvelope(now, items))).Err?
    ensures r.Err? ==> r.error == Decode(ResponseSchema, exchange(RequestEnvelope(now, items))).error
    ensures r.Ok? ==> var reply := exchange(RequestEnvelope(now, items));
      && reply.VDict? && reply.entries.Keys <= {"received_time", "sent_time", "feedback", "error"}
      && "received_time" in reply.entries && reply.entries["received_time"] == VFloat(r.value.receivedTime)
      && "sent_time" in reply.entries && reply.entries["sent_time"] == VFloat(r.value.sentTime)
      && r.value.feedback == Lookup(reply.entries, "feedback") && r.value.error == Lookup(reply.entries, "error")
  {
    DecodeResponse(exchange(RequestEnvelope(now, items)))
  }

  /** The worker decodes exactly the request the client sent. */
  lemma {:induction false} RequestEnvelopeRoundTrip(sentTime: real, items: seq<Value>)
    ensures DecodeRequest(RequestEnvelope(sentTime, items)) == Ok(Request(sentTime, items))
    ensures DecodeAsWritten(RequestSchema, RequestEnvelope(sentTime, items)) == Decode(RequestSchema, RequestEnvelope(sentTime, items))
  {
    var m := RequestEnvelope(sentTime, items).entries;
    var fields := RequestSchema.fields;
    assert fields[1..] == [Field("items", ListField, NoDefault)] && fields[1..][1..] == [];
    assert !Misfit(fields[0], m) && !Misfit(fields[1], m);
    assert Unsatisfied(fields[1..], m) == [];
    assert Unsatisfied(fields, m) == [];
    assert FieldNames(fields) == {"sent_time", "items"};
    assert m.Keys == {"sent_time", "items"};
    NoValuedDefaultsReportNothing("Request", fields, m);
  }

  // The unreachable ValueError
  // ~~~~~~~~~~~~~~~~~~~~~~~~~~

  /**
   * For the two records of the protocol the code as written never reports unsatisfied
   * fields: each of their fields either has no default (AttributeError) or a `None` one
   * (never reported), so the ValueError naming the fields cannot be raised.
   */
  lemma AsWrittenNeverReportsFields(decoded: Value)
    ensures DecodeAsWritten(RequestSchema, decoded).Err? ==> DecodeAsWritten(RequestSchema, decoded).error.kind != ValueError
    ensures DecodeAsWritten(ResponseSchema, decoded).Err? ==> DecodeAsWritten(ResponseSchema, decoded).error.kind != ValueError
  {
    if decoded.VDict? {
      NoValuedDefaultsReportNothing("Request", RequestSchema.fields, decoded.entries);
      NoValuedDefaultsReportNothing("Response", ResponseSchema.fields, decoded.entries);
    }
  }

  /** Fields whose defaults are all absent or `None` are never reported by the code as written. */
  lemma {:induction false} NoValuedDefaultsReportNothing(className: string, fields: seq<Field>, m: map<string, Value>)
    requires forall i :: 0 <= i < |fields| ==> !fields[i].default.DefaultTo?
    ensures UnsatisfiedAsWrittenFrom(className, fields, m).Ok? ==> UnsatisfiedAsWrittenFrom(className, fields, m).value == []
  {
    if fields != [] {
      NoValuedDefaultsReportNothing(className, fields[1..], m);
    }
  }

  /** A request without its send time raises AttributeError in the code as written... */
  lemma MissingSentTimeAsWritten(items: seq<Value>)
    ensures DecodeAsWritten(RequestSchema, VDict(map["items" := VList(items)]))
         == Err(NoAttribute("Request", "sent_time"))
  {
    var m := map["items" := VList(items)];
    var fields := RequestSchema.fields;
    assert Misfit(fields[0], m) && fields[0].default.NoDefault?;
    assert UnsatisfiedAsWrittenFrom("Request", fields, m) == Err(NoAttribute("Request", "sent_time"));
  }

  /** ...and the intended ValueError naming the field once corrected. */
  lemma MissingSentTimeReported(items: seq<Value>)
    ensures Decode(RequestSchema, VDict(map["items" := VList(items)])) == Err(UnsatisfiedError(["sent_time"]))
  {
    var m := map["items" := VList(items)];
    var fields := RequestSchema.fields;
    assert fields[1..] == [Field("items", ListField, NoDefault)] && fields[1..][1..] == [];
    assert Misfit(fields[0], m) && !Misfit(fields[1], m);
    assert Unsatisfied(fields[1..], m) == [];
    assert Unsatisfied(fields, m) == ["sent_time"];
  }

  // Connection types
  // ~~~~~~~~~~~~~~~~

  /** The keys of `client_types`. */
  const ClientTypes: set<string> := {"tcp"}
}
