/**
 * `GenerateResult<Partial, Complete>`: what one call of a settings model's
 * `generate` reports. `NeedsData` asks for another generation cycle and
 * carries whatever partial state was built so far; `Complete` carries the
 * finished value.
 *
 * The module holds the conversion `serialize` that the type-erasure layer
 * uses to ship a typed result as JSON, its inverse over a payload decoder,
 * the externally tagged JSON shape that `#[derive(Serialize, Deserialize)]`
 * gives the enum, and the order that `#[derive(PartialOrd, Ord)]` gives it.
 */
module GenerateResults {
  import opened Wrappers
  import opened Json

  datatype GenerateResult<P, C> = NeedsData(partial: Option<P>) | Complete(value: C)

  /** A serde conversion of one Rust type to a `Value`, such as `serde_json::to_value`. */
  type ToValue<!T> = T -> Result<Json, SerError>

  /** A serde conversion of a `Value` to one Rust type, such as `serde_json::from_value`. */
  type FromValue<!T> = Json -> Result<T, SerError>

  /**
   * `GenerateResult::serialize`: converts the payload, if any, keeping the
   * variant. A payload that fails to convert makes the whole result that
   * error; an absent partial needs no conversion at all.
   */
  function Serialize<P, C>(g: GenerateResult<P, C>, toP: ToValue<P>, toC: ToValue<C>)
    : (r: Result<GenerateResult<Json, Json>, SerError>)
    ensures r.Ok? ==> (r.value.NeedsData? <==> g.NeedsData?)
    ensures r.Ok? && g.NeedsData? ==> (r.value.partial.Some? <==> g.partial.Some?)
    ensures g == NeedsData(None) ==> r == Ok(NeedsData(None))
    ensures r.Err? <==>
              (g.NeedsData? && g.partial.Some? && toP(g.partial.value).Err?)
              || (g.Complete? && toC(g.value).Err?)
  {
    match g
    case NeedsData(optionalInterior) =>
      var o :- Transpose(OptionMap(optionalInterior, toP));
      Ok(NeedsData(o))
    case Complete(interior) =>
      var j :- toC(interior);
      Ok(Complete(j))
  }

  /** `NeedsData(None)` serializes to itself, whatever the payload converters do. */
  lemma SerializeAbsentPartial<P, C>(toP: ToValue<P>, toC: ToValue<C>)
    ensures Serialize(NeedsData(None), toP, toC) == Ok(NeedsData(None))
  {
  }

  /** A present partial serializes exactly as its own conversion does. */
  lemma SerializePartial<P, C>(p: P, toP: ToValue<P>, toC: ToValue<C>, j: Json, e: SerError)
    ensures Serialize(NeedsData(Some(p)), toP, toC) == Ok(NeedsData(Some(j))) <==> toP(p) == Ok(j)
    ensures Serialize(NeedsData(Some(p)), toP, toC) == Err(e) <==> toP(p) == Err(e)
  {
  }

  /** A complete value serializes exactly as its own conversion does. */
  lemma SerializeComplete<P, C>(c: C, toP: ToValue<P>, toC: ToValue<C>, j: Json, e: SerError)
    ensures Serialize(Complete(c), toP, toC) == Ok(Complete(j)) <==> toC(c) == Ok(j)
    ensures Serialize(Complete(c), toP, toC) == Err(e) <==> toC(c) == Err(e)
  {
  }

  /**
   * The inverse of `Serialize`: deserializes the payload, if any, keeping
   * the variant, as the derived `Deserialize` of `GenerateResult<P, C>` does
   * once the enum tag has been read.
   */
  function Deserialize<P, C>(h: GenerateResult<Json, Json>, fromP: FromValue<P>, fromC: FromValue<C>)
    : (r: Result<GenerateResult<P, C>, SerError>)
    ensures r.Ok? ==> (r.value.NeedsData? <==> h.NeedsData?)
    ensures r.Ok? && h.NeedsData? ==> (r.value.partial.Some? <==> h.partial.Some?)
    ensures h == NeedsData(None) ==> r == Ok(NeedsData(None))
    ensures r.Err? <==>
              (h.NeedsData? && h.partial.Some? && fromP(h.partial.value).Err?)
              || (h.Complete? && fromC(h.value).Err?)
  {
    match h
    case NeedsData(optionalInterior) =>
      var o :- Transpose(OptionMap(optionalInterior, fromP));
      Ok(NeedsData(o))
    case Complete(interior) =>
      var v :- fromC(interior);
      Ok(Complete(v))
  }

  /** An absent partial deserializes to itself, whatever the payload decoders do. */
  lemma DeserializeAbsentPartial<P, C>(fromP: FromValue<P>, fromC: FromValue<C>)
    ensures Deserialize(NeedsData(None), fromP, fromC) == Ok(NeedsData(None))
  {
  }

  /** A present partial deserializes exactly as its own decoding does. */
  lemma DeserializePartial<P, C>(j: Json, fromP: FromValue<P>, fromC: FromValue<C>, v: P, e: SerError)
    ensures Deserialize(NeedsData(Some(j)), fromP, fromC) == Ok(NeedsData(Some(v))) <==> fromP(j) == Ok(v)
    ensures Deserialize(NeedsData(Some(j)), fromP, fromC) == Err(e) <==> fromP(j) == Err(e)
  {
  }

  /** A complete value deserializes exactly as its own decoding does. */
  lemma DeserializeComplete<P, C>(j: Json, fromP: FromValue<P>, fromC: FromValue<C>, v: C, e: SerError)
    ensures Deserialize(Complete(j), fromP, fromC) == Ok(Complete(v)) <==> fromC(j) == Ok(v)
    ensures Deserialize(Complete(j), fromP, fromC) == Err(e) <==> fromC(j) == Err(e)
  {
  }

  /** `from` recovers every value that `to` converts successfully. */
  ghost predicate RoundTrips<T(!new)>(to: ToValue<T>, from: FromValue<T>) {
    forall x :: to(x).Ok? ==> from(to(x).value) == Ok(x)
  }

  /**
   * Round trip through `GenerateResult<Value, Value>`: when both payload
   * codecs round-trip, every result that serializes deserializes back to
   * itself. `WireRoundTrip` goes on through the JSON text form.
   */
  lemma SerializeRoundTrip<P(!new), C(!new)>(
    g: GenerateResult<P, C>, toP: ToValue<P>, toC: ToValue<C>, fromP: FromValue<P>, fromC: FromValue<C>)
    requires RoundTrips(toP, fromP) && RoundTrips(toC, fromC)
    requires Serialize(g, toP, toC).Ok?
    ensures Deserialize(Serialize(g, toP, toC).value, fromP, fromC) == Ok(g)
  {
  }

  const NeedsDataTag := "NeedsData"
  const CompleteTag := "Complete"

  /**
   * The JSON form of a `GenerateResult<Value, Value>` under the derived
   * (externally tagged) `Serialize`: a one-entry object keyed by the variant
   * name; an absent partial is `null`.
   */
  function EncodeWire(h: GenerateResult<Json, Json>): (j: Json)
    ensures j.Object? && |j.fields| == 1
    ensures h.NeedsData? <==> NeedsDataTag in j.fields
    ensures h.Complete? <==> CompleteTag in j.fields
  {
    match h
    case NeedsData(None) => Object(map[NeedsDataTag := Null])
    case NeedsData(Some(v)) => Object(map[NeedsDataTag := v])
    case Complete(v) => Object(map[CompleteTag := v])
  }

  /**
   * The derived `Deserialize` of `GenerateResult<Value, Value>` from a
   * `Value`: only a one-entry object whose key names a variant is accepted;
   * `null` under `NeedsData` reads as an absent partial.
   */
  function DecodeWire(j: Json): (r: Result<GenerateResult<Json, Json>, SerError>)
    ensures r.Ok? ==> j.Object? && |j.fields| == 1
    ensures r.Ok? && r.value.NeedsData? ==> NeedsDataTag in j.fields
    ensures r.Ok? && r.value.Complete? ==> CompleteTag in j.fields
  {
    match j
    case Object(m) =>
      if |m| != 1 then Err(SerError("expected a map with a single key"))
      else if NeedsDataTag in m then
        Ok(NeedsData(if m[NeedsDataTag] == Null then None else Some(m[NeedsDataTag])))
      else if CompleteTag in m then
        Ok(Complete(m[CompleteTag]))
      else Err(SerError("unknown variant"))
    case _ => Err(SerError("expected an externally tagged enum"))
  }

  /** Decoding then encoding gives back the very JSON that was decoded. */
  lemma DecodeThenEncode(j: Json)
    requires DecodeWire(j).Ok?
    ensures EncodeWire(DecodeWire(j).value) == j
  {
    var m := j.fields;
    var k := if NeedsDataTag in m then NeedsDataTag else CompleteTag;
    SingletonMap(m, k);
  }

  /** A map with one entry is the display of that entry. */
  lemma SingletonMap<K, V>(m: map<K, V>, k: K)
    requires |m| == 1 && k in m
    ensures m == map[k := m[k]]
  {
    var rest := m.Keys - {k};
    assert m.Keys == rest + {k};
    assert |rest| == 0;
    assert rest == {};
  }

  /**
   * Encoding then decoding gives back the result, except for a present
   * partial that is itself `null`.
   */
  lemma EncodeThenDecode(h: GenerateResult<Json, Json>)
    requires h != NeedsData(Some(Null))
    ensures DecodeWire(EncodeWire(h)) == Ok(h)
  {
  }

  /** A present `null` partial comes back absent: the JSON cannot tell the two apart. */
  lemma NullPartialComesBackAbsent()
    ensures EncodeWire(NeedsData(Some(Null))) == EncodeWire(NeedsData(None))
    ensures DecodeWire(EncodeWire(NeedsData(Some(Null)))) == Ok(NeedsData(None))
  {
  }

  /**
   * The whole trip through JSON: serialize the payloads, encode the enum,
   * decode it and deserialize the payloads. With round-tripping payload
   * codecs it gives the result back, unless the partial's JSON is `null`.
   */
  lemma WireRoundTrip<P(!new), C(!new)>(
    g: GenerateResult<P, C>, toP: ToValue<P>, toC: ToValue<C>, fromP: FromValue<P>, fromC: FromValue<C>)
    requires RoundTrips(toP, fromP) && RoundTrips(toC, fromC)
    requires Serialize(g, toP, toC).Ok? && Serialize(g, toP, toC).value != NeedsData(Some(Null))
    ensures DecodeWire(EncodeWire(Serialize(g, toP, toC).value)).Ok?
    ensures Deserialize(DecodeWire(EncodeWire(Serialize(g, toP, toC).value)).value, fromP, fromC) == Ok(g)
  {
  }

  /** The derived `Ord`: variants in declaration order, then by payload. */
  function Compare<P, C>(a: GenerateResult<P, C>, b: GenerateResult<P, C>,
                         cmpP: (P, P) -> Ordering, cmpC: (C, C) -> Ordering): (r: Ordering)
    ensures a.NeedsData? && b.Complete? ==> r == Less
    ensures a.Complete? && b.NeedsData? ==> r == Greater
    ensures a.NeedsData? && b.NeedsData? ==> r == CompareOption(a.partial, b.partial, cmpP)
    ensures a.Complete? && b.Complete? ==> r == cmpC(a.value, b.value)
  {
    match (a, b)
    case (NeedsData(x), NeedsData(y)) => CompareOption(x, y, cmpP)
    case (NeedsData(_), Complete(_)) => Less
    case (Complete(_), NeedsData(_)) => Greater
    case (Complete(x), Complete(y)) => cmpC(x, y)
  }

  /** Every `NeedsData` orders before every `Complete`. */
  lemma NeedsDataBeforeComplete<P, C>(p: Option<P>, c: C, cmpP: (P, P) -> Ordering, cmpC: (C, C) -> Ordering)
    ensures Compare(NeedsData(p), Complete(c), cmpP, cmpC) == Less
    ensures Compare(Complete(c), NeedsData(p), cmpP, cmpC) == Greater
  {
  }

  /** The derived order is total when the payload orders are. */
  lemma CompareIsTotal<P(!new), C(!new)>(cmpP: (P, P) -> Ordering, cmpC: (C, C) -> Ordering)
    requires IsTotalOrder(cmpP) && IsTotalOrder(cmpC)
    ensures IsTotalOrder((a, b) => Compare(a, b, cmpP, cmpC))
  {
    CompareOptionIsTotal(cmpP);
    var cmpO := (x, y) => CompareOption(x, y, cmpP);
    var cmp := (a, b) => Compare(a, b, cmpP, cmpC);
    assert forall a, b :: cmp(a, b) == Equal <==> a == b by {
      forall a, b ensures cmp(a, b) == Equal <==> a == b {
        if a.NeedsData? && b.NeedsData? {
          assert cmpO(a.partial, b.partial) == Equal <==> a.partial == b.partial;
        }
      }
    }
    assert forall a, b :: cmp(a, b) == Less <==> cmp(b, a) == Greater by {
      forall a, b ensures cmp(a, b) == Less <==> cmp(b, a) == Greater {
        if a.NeedsData? && b.NeedsData? {
          assert cmpO(a.partial, b.partial) == Less <==> cmpO(b.partial, a.partial) == Greater;
        }
      }
    }
    forall a, b, c | cmp(a, b) == Less && cmp(b, c) == Less ensures cmp(a, c) == Less {
      if a.NeedsData? && b.NeedsData? && c.NeedsData? {
        assert cmpO(a.partial, b.partial) == Less && cmpO(b.partial, c.partial) == Less;
      }
    }
  }
}
