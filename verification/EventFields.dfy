/** Event members that all three stream formats share, as they stand on the wire. */
module EventFields {
  import opened Wrappers
  import opened Json
  import opened Sse
  import opened StreamFields

  /** A printable id of at most 256 characters and a model name. */
  predicate Identifies(j: Json) {
    && IsToken(Get(j, "id"))
    && Get(j, "model").Str? && 0 < |Get(j, "model").s| <= 256
  }

  predicate IsToken(j: Json) {
    j.Str? && 0 < |j.s| <= 256 && forall c | c in j.s :: '!' <= c <= '~'
  }

  predicate IsText(j: Json, max: nat) { j.Str? && 0 < |j.s| <= max }

  predicate IsCount(j: Json, max: nat) { j.Int? && 0 <= j.n <= max }

  /** The object an event carries, null if its text is not one. */
  function Body(parse: Parse, e: Event): Json {
    var j := parse(e.data);
    if j.Ok? && j.value.Obj? then j.value else Null
  }

  lemma IdentityIs(j: Json)
    ensures IdentityOf(j).Ok? <==> Identifies(j)
    ensures Identifies(j) ==> Get(j, "id") == Str(IdentityOf(j).value.response)
    ensures Identifies(j) ==> Get(j, "model") == Str(IdentityOf(j).value.model)
  {
  }

  lemma DecodeIs(parse: Parse, e: Event)
    ensures Decode(parse, e).Ok? <==> Body(parse, e).Obj?
    ensures Decode(parse, e).Ok? ==> Decode(parse, e).value == Body(parse, e)
  {
  }

  lemma TokenIs(j: Json)
    ensures OpaqueId(j).Ok? <==> IsToken(j)
  {
  }

  lemma TextIs(j: Json, key: string, max: nat)
    ensures Text(j, key, max).Ok? <==> IsText(Get(j, key), max)
    ensures IsText(Get(j, key), max) ==> Text(j, key, max).value == Get(j, key).s
  {
  }

  lemma CountIs(j: Json, max: nat)
    ensures Integer(j, max).Ok? <==> IsCount(j, max)
    ensures IsCount(j, max) ==> Integer(j, max).value == j.n
  {
  }
}
