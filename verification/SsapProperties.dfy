/** What first-match decoding recovers of an encoded response payload. */
module SsapProperties {
  import opened SsapPayloads
  import opened Wrappers

  /** Field names are distinct and no optional value is optional twice. */
  predicate WellFormed(s: Shape)
    decreases s, 0
  {
    match s
    case OptShape(inner) => !inner.OptShape? && WellFormed(inner)
    case VecShape(item) => WellFormed(item)
    case StructShape(fields, _) => WellFormedFields(fields)
    case _ => true
  }

  predicate WellFormedFields(fields: seq<Field>)
    decreases fields, 0
  {
    (forall i :: 0 <= i < |fields| ==> WellFormed(fields[i].shape)) && Distinct(fields)
  }

  predicate Distinct(fields: seq<Field>) {
    forall i, j :: 0 <= i < j < |fields| ==> fields[i].name != fields[j].name
  }

  // ------------------------------------------------------- one shape inverts itself

  /** obj holds the encoding of every field under its name. */
  predicate Carries(obj: map<string, Json>, vs: seq<Value>, fields: seq<Field>)
    requires FieldsHaveShape(vs, fields)
  {
    fields == [] ||
    (fields[0].name in obj && obj[fields[0].name] == Encode(vs[0], fields[0].shape) &&
     Carries(obj, vs[1..], fields[1..]))
  }

  lemma {:induction false} StillCarries(obj: map<string, Json>, name: string, j: Json, vs: seq<Value>, fields: seq<Field>)
    requires FieldsHaveShape(vs, fields) && Carries(obj, vs, fields) && !Named(name, fields)
    ensures Carries(obj[name := j], vs, fields)
  {
    if fields != [] {
      assert fields[0] in fields;
      assert forall f :: f in fields[1..] ==> f in fields;
      StillCarries(obj, name, j, vs[1..], fields[1..]);
    }
  }

  lemma {:induction false} EncodingCarries(vs: seq<Value>, fields: seq<Field>)
    requires FieldsHaveShape(vs, fields) && WellFormedFields(fields)
    ensures Carries(EncodeFields(vs, fields), vs, fields)
    ensures forall name :: name in EncodeFields(vs, fields) <==> Named(name, fields)
  {
    if fields != [] {
      EncodingCarries(vs[1..], fields[1..]);
      StillCarries(EncodeFields(vs[1..], fields[1..]), fields[0].name, Encode(vs[0], fields[0].shape), vs[1..], fields[1..]);
      assert fields == [fields[0]] + fields[1..];
    }
  }

  lemma {:induction false} RoundTrip(v: Value, s: Shape)
    requires WellFormed(s) && HasShape(v, s)
    ensures Decode(Encode(v, s), s) == Some(v)
    decreases s, 0
  {
    match s
    case OptShape(inner) =>
      if v.SomeValue? {
        RoundTrip(v.value, inner);
        assert !Encode(v.value, inner).Null?;
      }
    case VecShape(item) =>
      AllRoundTrip(v.items, item);
    case StructShape(fields, _) =>
      EncodingCarries(v.fields, fields);
      FieldsRoundTrip(EncodeFields(v.fields, fields), v.fields, fields);
    case _ =>
  }

  lemma {:induction false} AllRoundTrip(vs: seq<Value>, s: Shape)
    requires WellFormed(s) && AllHaveShape(vs, s)
    ensures DecodeAll(EncodeAll(vs, s), s) == Some(vs)
    decreases s, |vs|
  {
    if vs != [] {
      RoundTrip(vs[0], s);
      AllRoundTrip(vs[1..], s);
      assert EncodeAll(vs, s)[1..] == EncodeAll(vs[1..], s);
      assert vs == [vs[0]] + vs[1..];
    }
  }

  lemma {:induction false} FieldsRoundTrip(obj: map<string, Json>, vs: seq<Value>, fields: seq<Field>)
    requires WellFormedFields(fields) && FieldsHaveShape(vs, fields) && Carries(obj, vs, fields)
    ensures DecodeFields(obj, fields) == Some(vs)
    decreases fields, 0
  {
    if fields != [] {
      RoundTrip(vs[0], fields[0].shape);
      FieldsRoundTrip(obj, vs[1..], fields[1..]);
      assert vs == [vs[0]] + vs[1..];
    }
  }

  // --------------------------------------------------------- what a shape refuses

  lemma {:induction false} MissingField(obj: map<string, Json>, fields: seq<Field>, f: Field)
    requires f in fields && f.name !in obj && !f.shape.OptShape?
    ensures DecodeFields(obj, fields) == None
  {
    if f != fields[0] {
      MissingField(obj, fields[1..], f);
    }
  }

  /** A required field of each variant, absent from every later variant but for the state
      of a power state, which the screen-on answer shares. */
  function Marker(v: Variant): Field {
    match v
    case CurrentSwInfo => Field("product_name", StrShape)
    case GetExternalInputList => Field("devices", VecShape(StructShape(EXTERNAL_INPUT, false)))
    case GetPowerState => Field("state", StrShape)
    case GetSystemInfo => Field("receiverType", StrShape)
    case GetVolumeVariantA => Field("volumeStatus", StructShape(VOLUME_STATUS, false))
    case GetVolumeVariantB => Field("volumeMax", U8)
    case Pair => Field("pairingType", StrShape)
    case PlainReturnValue => RETURN_VALUE
    case SetMute => Field("muteStatus", BoolShape)
    case SetScreenOn => Field("state", StrShape)
    case SetVolume => Field("volume", U8)
  }

  function Order(v: Variant): nat {
    match v
    case CurrentSwInfo => 0
    case GetExternalInputList => 1
    case GetPowerState => 2
    case GetSystemInfo => 3
    case GetVolumeVariantA => 4
    case GetVolumeVariantB => 5
    case Pair => 6
    case PlainReturnValue => 7
    case SetMute => 8
    case SetScreenOn => 9
    case SetVolume => 10
  }

  lemma MarkerIsRequired(v: Variant)
    ensures Marker(v) in FieldsOf(v) && !Marker(v).shape.OptShape?
  {
  }

  lemma NestedStructsAreWellFormed()
    ensures WellFormedFields(EXTERNAL_INPUT) && WellFormedFields(FEATURES) && WellFormedFields(VOLUME_STATUS)
  {
    assert Distinct(FEATURES);
    hide Distinct;
  }

  lemma SwInfoNamesAreDistinct()
    ensures Distinct(CURRENT_SW_INFO)
  {
  }

  lemma VolumeNamesAreDistinct()
    ensures Distinct(GET_VOLUME_B)
  {
  }

  lemma NamesAreDistinct(v: Variant)
    ensures Distinct(FieldsOf(v))
  {
    SwInfoNamesAreDistinct();
    VolumeNamesAreDistinct();
    hide CURRENT_SW_INFO, GET_VOLUME_B, EXTERNAL_INPUT, FEATURES, VOLUME_STATUS;
  }

  lemma VariantIsWellFormed(v: Variant)
    ensures WellFormedFields(FieldsOf(v))
  {
    NamesAreDistinct(v);
    NestedStructsAreWellFormed();
    assert WellFormed(VecShape(StructShape(EXTERNAL_INPUT, false)));
    assert WellFormed(OptShape(StructShape(FEATURES, false)));
    assert WellFormed(StructShape(VOLUME_STATUS, false));
    hide Distinct, EXTERNAL_INPUT, VOLUME_STATUS, FEATURES;
  }

  lemma VolumeHasNoEarlierMarker()
    ensures forall e :: Order(e) < Order(GetVolumeVariantB) ==> !Named(Marker(e).name, GET_VOLUME_B)
  {
    hide EXTERNAL_INPUT, FEATURES, VOLUME_STATUS;
  }

  lemma MarkersAreFresh(v: Variant, e: Variant)
    requires v != SetScreenOn && Order(e) < Order(v) && e != PlainReturnValue
    ensures !Named(Marker(e).name, FieldsOf(v))
  {
    VolumeHasNoEarlierMarker();
    hide GET_VOLUME_B, CURRENT_SW_INFO, EXTERNAL_INPUT, FEATURES, VOLUME_STATUS;
  }

  // ------------------------------------------------------------- the first match

  lemma OrderIsPosition(v: Variant)
    ensures Order(v) < |VARIANTS| && VARIANTS[Order(v)] == v
    ensures forall k :: 0 <= k < |VARIANTS| ==> Order(VARIANTS[k]) == k
  {
  }

  lemma {:induction false} FirstMatchFrom(j: Json, k: nat, v: Variant, value: Value)
    requires k <= |VARIANTS|
    ensures FirstMatch(j, VARIANTS[k..]) == Some(Payload(v, value)) <==>
      k <= Order(v) && Decode(j, ShapeOf(v)) == Some(value) &&
      forall e :: k <= Order(e) < Order(v) ==> Decode(j, ShapeOf(e)) == None
    decreases |VARIANTS| - k
  {
    hide VARIANTS, Order, Decode, ShapeOf;
    OrderIsPosition(v);
    if k < |VARIANTS| {
      var head := VARIANTS[k];
      assert VARIANTS[k..][0] == head && VARIANTS[k..][1..] == VARIANTS[k + 1..];
      assert Order(head) == k;
      forall e | Order(e) == k ensures e == head {
        OrderIsPosition(e);
      }
      FirstMatchFrom(j, k + 1, v, value);
    }
  }

  /** The union decodes to a variant exactly when that variant's shape fits and no
      variant listed before it does. */
  lemma FirstMatchWins(j: Json, v: Variant, value: Value)
    ensures DecodePayload(j) == Some(Payload(v, value)) <==>
      Decode(j, ShapeOf(v)) == Some(value) && forall e :: Order(e) < Order(v) ==> Decode(j, ShapeOf(e)) == None
  {
    hide Decode, ShapeOf;
    FirstMatchFrom(j, 0, v, value);
    assert VARIANTS[0..] == VARIANTS;
  }

  lemma EncodingIsAnObject(v: Variant, value: Value)
    requires HasShape(value, ShapeOf(v))
    ensures Encode(value, ShapeOf(v)).Obj?
    ensures forall name :: name in Encode(value, ShapeOf(v)).fields <==> Named(name, FieldsOf(v))
    ensures Decode(Encode(value, ShapeOf(v)), ShapeOf(v)) == Some(value)
  {
    hide FieldsOf;
    VariantIsWellFormed(v);
    EncodingCarries(value.fields, FieldsOf(v));
    RoundTrip(value, ShapeOf(v));
  }

  lemma RefusedWithoutMarker(obj: map<string, Json>, e: Variant)
    requires e != PlainReturnValue && Marker(e).name !in obj
    ensures Decode(Obj(obj), ShapeOf(e)) == None
  {
    MarkerIsRequired(e);
    hide FieldsOf, Marker;
    MissingField(obj, FieldsOf(e), Marker(e));
  }

  lemma UnknownIsDenied(obj: map<string, Json>, fields: seq<Field>)
    requires HasUnknown(obj, fields)
    ensures Decode(Obj(obj), StructShape(fields, true)) == None
  {
  }

  lemma OnlyOneNameIsPlain(obj: map<string, Json>, name: string)
    requires name in obj && name != "returnValue"
    ensures HasUnknown(obj, PLAIN_RETURN_VALUE)
  {
    assert !Named(name, PLAIN_RETURN_VALUE);
  }

  lemma PlainRefusesMore(obj: map<string, Json>, name: string)
    requires name in obj && name != "returnValue"
    ensures Decode(Obj(obj), ShapeOf(PlainReturnValue)) == None
  {
    hide Decode, HasUnknown, PLAIN_RETURN_VALUE;
    OnlyOneNameIsPlain(obj, name);
    UnknownIsDenied(obj, PLAIN_RETURN_VALUE);
  }

  lemma EarlierVariantRefuses(v: Variant, value: Value, e: Variant)
    requires v != SetScreenOn && HasShape(value, ShapeOf(v)) && Order(e) < Order(v)
    ensures Decode(Encode(value, ShapeOf(v)), ShapeOf(e)) == None
  {
    EncodingIsAnObject(v, value);
    MarkerIsRequired(v);
    hide HasShape, Encode, Decode, ShapeOf, FieldsOf;
    var obj := Encode(value, ShapeOf(v)).fields;
    assert Obj(obj) == Encode(value, ShapeOf(v));
    if e == PlainReturnValue {
      assert Marker(v).name in obj;
      PlainRefusesMore(obj, Marker(v).name);
    } else {
      MarkersAreFresh(v, e);
      RefusedWithoutMarker(obj, e);
    }
  }

  // ------------------------------------------------------------------- screen on

  predicate Optional(obj: map<string, Json>, name: string) {
    name in obj ==> obj[name].Str? || obj[name].Null?
  }

  lemma DecodeFirst(obj: map<string, Json>, fields: seq<Field>, f: Field, rest: seq<Field>)
    requires fields == [f] + rest
    ensures DecodeFields(obj, fields) ==
      match (DecodeField(obj, f), DecodeFields(obj, rest))
      case (Some(v), Some(vs)) => Some([v] + vs)
      case _ => None
  {
    hide DecodeField;
    assert fields[1..] == rest;
  }

  lemma OptionalText(j: Json)
    ensures Decode(j, OptShape(StrShape)).Some? <==> j.Str? || j.Null?
  {
    assert Decode(j, StrShape).Some? <==> j.Str?;
  }

  /** Both shapes ask for a state and a return value; the power state also minds what
      processing is. */
  lemma PowerStateFits(obj: map<string, Json>)
    requires "returnValue" in obj && obj["returnValue"].Bool? && "state" in obj && obj["state"].Str?
    ensures Decode(Obj(obj), ShapeOf(GetPowerState)).Some? <==> Optional(obj, "processing")
    ensures "processing" !in obj ==>
      Decode(Obj(obj), ShapeOf(GetPowerState)) ==
        Some(StructValue([StrValue(obj["state"].s), NoValue, BoolValue(obj["returnValue"].b)]))
  {
    var state, processing := Field("state", StrShape), Field("processing", OptShape(StrShape));
    if "processing" in obj {
      OptionalText(obj["processing"]);
    }
    DecodeFirst(obj, GET_POWER_STATE, state, [processing, RETURN_VALUE]);
    DecodeFirst(obj, [processing, RETURN_VALUE], processing, [RETURN_VALUE]);
    DecodeFirst(obj, [RETURN_VALUE], RETURN_VALUE, []);
    assert DecodeFields(obj, []) == Some([]);
    hide DecodeFields;
    var x, z := StrValue(obj["state"].s), BoolValue(obj["returnValue"].b);
    assert [x] + ([NoValue] + ([z] + [])) == [x, NoValue, z];
  }

  lemma ScreenOnFits(obj: map<string, Json>)
    ensures Decode(Obj(obj), ShapeOf(SetScreenOn)).Some? <==>
      "returnValue" in obj && obj["returnValue"].Bool? && "state" in obj && obj["state"].Str?
  {
    var state := Field("state", StrShape);
    DecodeFirst(obj, SET_SCREEN_ON, RETURN_VALUE, [state]);
    DecodeFirst(obj, [state], state, []);
    assert DecodeFields(obj, []) == Some([]);
    hide DecodeFields;
  }

  lemma TwoFields(vs: seq<Value>, f: Field, g: Field)
    requires FieldsHaveShape(vs, [f, g])
    ensures |vs| == 2 && HasShape(vs[0], f.shape) && HasShape(vs[1], g.shape)
    ensures EncodeFields(vs, [f, g]) == map[g.name := Encode(vs[1], g.shape)][f.name := Encode(vs[0], f.shape)]
  {
    assert [f, g][1..] == [g] && [g][1..] == [];
    assert FieldsHaveShape(vs[1..], [g]);
    assert FieldsHaveShape(vs[1..][1..], []);
    assert EncodeFields(vs[1..], [g]) == map[g.name := Encode(vs[1], g.shape)];
  }

  lemma EarlierThanScreenOn(obj: map<string, Json>)
    requires "product_name" !in obj && "devices" !in obj
    ensures forall e :: Order(e) < Order(GetPowerState) ==> Decode(Obj(obj), ShapeOf(e)) == None
  {
    forall e | Order(e) < Order(GetPowerState) ensures Decode(Obj(obj), ShapeOf(e)) == None {
      hide Decode, ShapeOf;
      RefusedWithoutMarker(obj, e);
    }
  }

  /** The answer to a screen-on request always reads as a power state with the same
      state and no processing. */
  lemma ScreenOnReadsAsPowerState(value: Value)
    requires HasShape(value, ShapeOf(SetScreenOn))
    ensures |value.fields| == 2
    ensures DecodePayload(Encode(value, ShapeOf(SetScreenOn))) ==
      Some(Payload(GetPowerState, StructValue([value.fields[1], NoValue, value.fields[0]])))
  {
    TwoFields(value.fields, RETURN_VALUE, Field("state", StrShape));
    var obj := Encode(value, ShapeOf(SetScreenOn)).fields;
    assert obj == map["returnValue" := Bool(value.fields[0].b), "state" := Str(value.fields[1].s)];
    hide Decode, Encode, FieldsOf;
    PowerStateFits(obj);
    EarlierThanScreenOn(obj);
    FirstMatchWins(Obj(obj), GetPowerState, StructValue([value.fields[1], NoValue, value.fields[0]]));
  }

  /** A payload survives encoding and decoding exactly when it is not the answer to a
      screen-on request. */
  lemma DecodingInvertsEncoding(v: Variant, value: Value)
    requires HasShape(value, ShapeOf(v))
    ensures DecodePayload(Encode(value, ShapeOf(v))) == Some(Payload(v, value)) <==> v != SetScreenOn
  {
    hide HasShape, Encode, Decode, ShapeOf, DecodePayload;
    if v == SetScreenOn {
      ScreenOnReadsAsPowerState(value);
    } else {
      EncodingIsAnObject(v, value);
      forall e | Order(e) < Order(v) ensures Decode(Encode(value, ShapeOf(v)), ShapeOf(e)) == None {
        EarlierVariantRefuses(v, value, e);
      }
      FirstMatchWins(Encode(value, ShapeOf(v)), v, value);
    }
  }

  lemma ScreenOnFromObject(obj: map<string, Json>, value: Value)
    ensures DecodePayload(Obj(obj)) == Some(Payload(SetScreenOn, value)) <==>
      Decode(Obj(obj), ShapeOf(SetScreenOn)) == Some(value) &&
      "processing" in obj && !obj["processing"].Str? && !obj["processing"].Null? &&
      forall e :: e != GetPowerState && Order(e) < Order(SetScreenOn) ==> Decode(Obj(obj), ShapeOf(e)) == None
  {
    hide Decode, FieldsOf;
    FirstMatchWins(Obj(obj), SetScreenOn, value);
    ScreenOnFits(obj);
    if Decode(Obj(obj), ShapeOf(SetScreenOn)).Some? {
      PowerStateFits(obj);
    }
  }

  /** An array is read position by position, none missing and none left over. */
  lemma {:induction false} PositionsMatch(items: seq<Json>, fields: seq<Field>)
    ensures DecodePositions(items, fields).Some? <==>
      |items| == |fields| && forall k :: 0 <= k < |items| ==> Decode(items[k], fields[k].shape).Some?
    decreases |fields|
  {
    hide Decode;
    if fields != [] && items != [] {
      PositionsMatch(items[1..], fields[1..]);
      assert forall k :: 0 < k < |items| ==> items[k] == items[1..][k - 1];
      assert |items| == |fields| ==> forall k :: 0 < k < |items| ==> fields[k] == fields[1..][k - 1];
      assert forall k :: 0 <= k < |items| - 1 ==> items[1..][k] == items[k + 1];
      assert forall k :: 0 <= k < |fields| - 1 ==> fields[1..][k] == fields[k + 1];
    }
  }

  /** A flag and a text, in that order. */
  predicate FlagAndText(items: seq<Json>) {
    |items| == 2 && items[0].Bool? && items[1].Str?
  }

  lemma ScreenOnPositions(items: seq<Json>, value: Value)
    ensures Decode(Arr(items), ShapeOf(SetScreenOn)) == Some(value) <==>
      FlagAndText(items) && value == StructValue([BoolValue(items[0].b), StrValue(items[1].s)])
  {
    PositionsMatch(items, SET_SCREEN_ON);
    if |items| == 2 {
      var rest := items[1..];
      assert SET_SCREEN_ON[1..] == [Field("state", StrShape)] && rest[0] == items[1] && rest[1..] == [];
      assert SET_SCREEN_ON[1..][1..] == [];
      if FlagAndText(items) {
        assert DecodePositions(rest, SET_SCREEN_ON[1..]) == Some([StrValue(items[1].s)] + []);
        assert [BoolValue(items[0].b)] + ([StrValue(items[1].s)] + []) == [BoolValue(items[0].b), StrValue(items[1].s)];
      }
    }
  }

  lemma FlagAndTextRefused(items: seq<Json>, e: Variant)
    requires FlagAndText(items) && e != SetScreenOn
    ensures Decode(Arr(items), ShapeOf(e)) == None
  {
    var fields := FieldsOf(e);
    PositionsMatch(items, fields);
    if |fields| == 2 {
      assert e == GetExternalInputList || e == Pair;
      assert fields[1].shape.VecShape? || fields[0].shape == StrShape;
    }
    hide FieldsOf, DecodePositions;
  }

  lemma ScreenOnFromArray(items: seq<Json>, value: Value)
    ensures DecodePayload(Arr(items)) == Some(Payload(SetScreenOn, value)) <==>
      FlagAndText(items) && value == StructValue([BoolValue(items[0].b), StrValue(items[1].s)])
  {
    ScreenOnPositions(items, value);
    FirstMatchWins(Arr(items), SetScreenOn, value);
    hide Decode, ShapeOf, DecodePayload;
    forall e | Order(e) < Order(SetScreenOn) && FlagAndText(items)
      ensures Decode(Arr(items), ShapeOf(e)) == None
    {
      FlagAndTextRefused(items, e);
    }
  }

  /** The answers that reach the screen-on arm: objects its shape fits, whose
      processing field is there but neither text nor null, and which no other variant
      listed earlier fits; and the arrays of a flag and a text. No other JSON does. */
  lemma ScreenOnExactly(j: Json, value: Value)
    ensures DecodePayload(j) == Some(Payload(SetScreenOn, value)) <==>
      match j
      case Obj(obj) =>
        && Decode(j, ShapeOf(SetScreenOn)) == Some(value)
        && "processing" in obj && !obj["processing"].Str? && !obj["processing"].Null?
        && forall e :: e != GetPowerState && Order(e) < Order(SetScreenOn) ==> Decode(j, ShapeOf(e)) == None
      case Arr(items) => FlagAndText(items) && value == StructValue([BoolValue(items[0].b), StrValue(items[1].s)])
      case _ => false
  {
    match j
    case Obj(obj) =>
      hide DecodePayload, Decode, ShapeOf, Order;
      ScreenOnFromObject(obj, value);
    case Arr(items) =>
      hide DecodePayload;
      ScreenOnFromArray(items, value);
    case _ =>
      hide DecodePayload, FieldsOf;
      FirstMatchWins(j, SetScreenOn, value);
  }

  /** The screen-on arm is not dead: an object with an odd processing field gets there. */
  lemma ScreenOnIsReachable()
    ensures DecodePayload(
      Obj(map["returnValue" := Bool(true), "state" := Str("Active"), "processing" := Bool(true)])) ==
      Some(Payload(SetScreenOn, StructValue([BoolValue(true), StrValue("Active")])))
  {
    var obj := map["returnValue" := Bool(true), "state" := Str("Active"), "processing" := Bool(true)];
    var value := StructValue([BoolValue(true), StrValue("Active")]);
    assert Decode(Obj(obj), ShapeOf(SetScreenOn)) == Some(value) by {
      var state := Field("state", StrShape);
      DecodeFirst(obj, SET_SCREEN_ON, RETURN_VALUE, [state]);
      DecodeFirst(obj, [state], state, []);
      assert DecodeFields(obj, []) == Some([]);
      hide DecodeFields;
      assert [BoolValue(true)] + ([StrValue("Active")] + []) == [BoolValue(true), StrValue("Active")];
    }
    hide Decode, ShapeOf;
    forall e | e != GetPowerState && Order(e) < Order(SetScreenOn) ensures Decode(Obj(obj), ShapeOf(e)) == None {
      if e == PlainReturnValue {
        PlainRefusesMore(obj, "state");
      } else {
        RefusedWithoutMarker(obj, e);
      }
    }
    ScreenOnFromObject(obj, value);
  }
}
