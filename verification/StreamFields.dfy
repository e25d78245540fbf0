/** Field readers shared by the stream replays.  Parsing the JSON text of an
    event is a parameter: it yields a value or one of its own error codes. */
module StreamFields {
  import opened Wrappers
  import opened Json
  import opened Sse

  type Parse = string -> Result<Json>

  function Decode(parse: Parse, e: Event): (r: Result<Json>)
    ensures r.Ok? ==> r.value.Obj?
  {
    var j :- parse(e.data);
    if j.Obj? then Ok(j) else Err("stream_event_object")
  }

  function Text(j: Json, key: string, max: nat): (r: Result<string>)
    ensures r.Ok? ==> Get(j, key) == Str(r.value) && 0 < |r.value| <= max
  {
    match Get(j, key)
    case Str(s) => if 0 < |s| <= max then Ok(s) else Err("stream_field_bound")
    case _ => Err("stream_field_type")
  }

  function StringField(j: Json, key: string): Outcome {
    Need(Get(j, key).Str?, "stream_field_type")
  }

  function OpaqueId(j: Json): (r: Result<string>)
    ensures r.Ok? ==> j == Str(r.value) && 0 < |r.value| <= 256
  {
    match j
    case Str(s) =>
      if 0 < |s| <= 256 && forall c | c in s :: 33 as char <= c <= 126 as char then Ok(s)
      else Err("usage_response_identity")
    case _ => Err("usage_response_identity")
  }

  function Integer(j: Json, max: nat): (r: Result<nat>)
    ensures r.Ok? ==> j == Int(r.value) && r.value <= max
  {
    match j
    case Int(n) => if 0 <= n <= max then Ok(n) else Err("cost_quantity")
    case _ => Err("cost_quantity")
  }

  predicate IsObject(j: Json, key: string) { Get(j, key).Obj? }

  predicate StringOrNull(j: Json, key: string) {
    Has(j, key) && (Get(j, key).Str? || Get(j, key).Null?)
  }

  function EventName(e: Event, kind: string): Outcome {
    Need(e.name == "" || e.name == kind, "stream_event_mismatch")
  }

  /** Response id and model; empty before the first one is seen. */
  datatype Identity = Identity(response: string, model: string)

  const UNSEEN := Identity("", "")

  function IdentityOf(j: Json): (r: Result<Identity>)
    ensures r.Ok? ==>
              && Get(j, "id") == Str(r.value.response) && OpaqueId(Get(j, "id")).Ok?
              && Get(j, "model") == Str(r.value.model) && 0 < |r.value.model| <= 256
  {
    if !Has(j, "id") then Err("stream_identity") else
    var rid :- OpaqueId(Get(j, "id"));
    var model :- Text(j, "model", 256);
    Ok(Identity(rid, model))
  }

  function ObserveIdentity(id: Identity, j: Json): (r: Result<Identity>)
    ensures r.Ok? <==> IdentityOf(j).Ok? && (id.response == "" || id == IdentityOf(j).value)
    ensures r.Ok? ==> r == IdentityOf(j)
  {
    var now :- IdentityOf(j);
    if id.response == "" || now == id then Ok(now) else Err("stream_identity_changed")
  }
}
