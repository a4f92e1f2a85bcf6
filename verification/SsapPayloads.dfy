/** The response payloads of the TV and how an untagged union of them is decoded:
    the shapes the derived code reads and writes, field by field, and the rule that
    the first shape to fit wins. */
module SsapPayloads {
  import opened Wrappers

  datatype Json =
    | Null
    | Bool(b: bool)
    | Int(n: int)
    | Float(digits: string)
    | Str(s: string)
    | Arr(items: seq<Json>)
    | Obj(fields: map<string, Json>)

  datatype Shape =
    | BoolShape
    | StrShape
    | IntShape(low: int, high: int)
    | OptShape(inner: Shape)
    | VecShape(item: Shape)
    | StructShape(fields: seq<Field>, denyUnknown: bool)

  datatype Field = Field(name: string, shape: Shape)

  datatype Value =
    | BoolValue(b: bool)
    | StrValue(s: string)
    | IntValue(n: int)
    | NoValue
    | SomeValue(value: Value)
    | VecValue(items: seq<Value>)
    | StructValue(fields: seq<Value>)

  // --------------------------------------------------------------------- shapes

  const U8 := IntShape(0, 255)
  const I64 := IntShape(-0x8000_0000_0000_0000, 0x7fff_ffff_ffff_ffff)

  datatype Variant =
    | CurrentSwInfo
    | GetExternalInputList
    | GetPowerState
    | GetSystemInfo
    | GetVolumeVariantA
    | GetVolumeVariantB
    | Pair
    | PlainReturnValue
    | SetMute
    | SetScreenOn
    | SetVolume

  /** The variants in the order they are tried. */
  const VARIANTS: seq<Variant> := [
    CurrentSwInfo, GetExternalInputList, GetPowerState, GetSystemInfo, GetVolumeVariantA, GetVolumeVariantB,
    Pair, PlainReturnValue, SetMute, SetScreenOn, SetVolume]

  const RETURN_VALUE := Field("returnValue", BoolShape)

  const EXTERNAL_INPUT: seq<Field> := [
    Field("id", StrShape), Field("label", StrShape), Field("port", I64), Field("connected", BoolShape),
    Field("appId", OptShape(StrShape)), Field("icon", OptShape(StrShape)), Field("forceIcon", OptShape(BoolShape)),
    Field("modified", OptShape(BoolShape)), Field("lastUniqueId", OptShape(I64)),
    Field("hdmiPlugIn", OptShape(BoolShape)),
    Field("subCount", OptShape(I64)), Field("favorite", OptShape(BoolShape))]

  const FEATURES: seq<Field> := [Field("3d", OptShape(BoolShape)), Field("dvr", OptShape(BoolShape))]

  const VOLUME_STATUS: seq<Field> := [
    Field("volumeLimitable", OptShape(BoolShape)), Field("activeStatus", OptShape(BoolShape)), Field("maxVolume", U8),
    Field("volumeLimiter", OptShape(StrShape)), Field("soundOutput", OptShape(StrShape)), Field("volume", U8),
    Field("cause", OptShape(StrShape)), Field("mode", OptShape(StrShape)),
    Field("externalDeviceControl", OptShape(BoolShape)),
    Field("muteStatus", BoolShape), Field("volumeSyncable", OptShape(BoolShape)), Field("adjustVolume", BoolShape)]

  const CURRENT_SW_INFO: seq<Field> := [
    RETURN_VALUE, Field("product_name", StrShape), Field("model_name", StrShape), Field("sw_type", StrShape),
    Field("major_ver", StrShape), Field("minor_ver", StrShape), Field("country", StrShape),
    Field("country_group", StrShape), Field("device_id", StrShape), Field("auth_flag", StrShape),
    Field("ignore_disable", StrShape), Field("eco_info", StrShape), Field("config_key", StrShape),
    Field("language_code", StrShape)]

  const GET_EXTERNAL_INPUT_LIST: seq<Field> := [
    RETURN_VALUE, Field("devices", VecShape(StructShape(EXTERNAL_INPUT, false)))]

  const GET_POWER_STATE: seq<Field> := [Field("state", StrShape), Field("processing", OptShape(StrShape)), RETURN_VALUE]

  const GET_SYSTEM_INFO: seq<Field> := [
    RETURN_VALUE, Field("features", OptShape(StructShape(FEATURES, false))), Field("receiverType", StrShape),
    Field("modelName", StrShape), Field("serialNumber", OptShape(StrShape)), Field("programMode", BoolShape)]

  const GET_VOLUME_A: seq<Field> := [
    RETURN_VALUE, Field("volumeStatus", StructShape(VOLUME_STATUS, false)), Field("callerId", OptShape(StrShape))]

  const GET_VOLUME_B: seq<Field> := [
    RETURN_VALUE, Field("volumeMax", U8), Field("ringtonewithvibration", OptShape(BoolShape)),
    Field("scenario", OptShape(StrShape)), Field("muted", BoolShape), Field("hac", OptShape(BoolShape)),
    Field("subscribed", OptShape(BoolShape)), Field("volume", U8), Field("action", OptShape(StrShape)),
    Field("supportvolume", BoolShape), Field("ringer switch", OptShape(BoolShape)),
    Field("slider", OptShape(BoolShape)),
    Field("active", OptShape(BoolShape))]

  const PAIR: seq<Field> := [Field("pairingType", StrShape), RETURN_VALUE]

  const PLAIN_RETURN_VALUE: seq<Field> := [RETURN_VALUE]

  const SET_MUTE: seq<Field> := [RETURN_VALUE, Field("muteStatus", BoolShape), Field("soundOutput", StrShape)]

  const SET_SCREEN_ON: seq<Field> := [RETURN_VALUE, Field("state", StrShape)]

  const SET_VOLUME: seq<Field> := [RETURN_VALUE, Field("volume", U8), Field("soundOutput", StrShape)]

  function FieldsOf(v: Variant): seq<Field> {
    match v
    case CurrentSwInfo => CURRENT_SW_INFO
    case GetExternalInputList => GET_EXTERNAL_INPUT_LIST
    case GetPowerState => GET_POWER_STATE
    case GetSystemInfo => GET_SYSTEM_INFO
    case GetVolumeVariantA => GET_VOLUME_A
    case GetVolumeVariantB => GET_VOLUME_B
    case Pair => PAIR
    case PlainReturnValue => PLAIN_RETURN_VALUE
    case SetMute => SET_MUTE
    case SetScreenOn => SET_SCREEN_ON
    case SetVolume => SET_VOLUME
  }

  function ShapeOf(v: Variant): Shape {
    StructShape(FieldsOf(v), v == PlainReturnValue)
  }

  // ------------------------------------------------------------------- the codec

  predicate HasShape(v: Value, s: Shape)
    decreases s, 0, v
  {
    match s
    case BoolShape => v.BoolValue?
    case StrShape => v.StrValue?
    case IntShape(low, high) => v.IntValue? && low <= v.n <= high
    case OptShape(inner) => v.NoValue? || (v.SomeValue? && HasShape(v.value, inner))
    case VecShape(item) => v.VecValue? && AllHaveShape(v.items, item)
    case StructShape(fields, _) => v.StructValue? && FieldsHaveShape(v.fields, fields)
  }

  predicate AllHaveShape(vs: seq<Value>, s: Shape)
    decreases s, |vs|
  {
    vs == [] || (HasShape(vs[0], s) && AllHaveShape(vs[1..], s))
  }

  predicate FieldsHaveShape(vs: seq<Value>, fields: seq<Field>)
    decreases fields, 0, vs
  {
    if fields == [] then vs == []
    else vs != [] && HasShape(vs[0], fields[0].shape) && FieldsHaveShape(vs[1..], fields[1..])
  }

  function Encode(v: Value, s: Shape): Json
    requires HasShape(v, s)
    decreases s, 0, v
  {
    match s
    case BoolShape => Bool(v.b)
    case StrShape => Str(v.s)
    case IntShape(_, _) => Int(v.n)
    case OptShape(inner) => if v.NoValue? then Null else Encode(v.value, inner)
    case VecShape(item) => Arr(EncodeAll(v.items, item))
    case StructShape(fields, _) => Obj(EncodeFields(v.fields, fields))
  }

  function EncodeAll(vs: seq<Value>, s: Shape): (js: seq<Json>)
    requires AllHaveShape(vs, s)
    decreases s, |vs|
  {
    if vs == [] then [] else [Encode(vs[0], s)] + EncodeAll(vs[1..], s)
  }

  function EncodeFields(vs: seq<Value>, fields: seq<Field>): map<string, Json>
    requires FieldsHaveShape(vs, fields)
    decreases fields, 0, vs
  {
    if fields == [] then map[]
    else EncodeFields(vs[1..], fields[1..])[fields[0].name := Encode(vs[0], fields[0].shape)]
  }

  /** An object is read by field name, an array by field position. */
  function Decode(j: Json, s: Shape): Option<Value>
    decreases s, 0, j
  {
    match s
    case BoolShape => if j.Bool? then Some(BoolValue(j.b)) else None
    case StrShape => if j.Str? then Some(StrValue(j.s)) else None
    case IntShape(low, high) => if j.Int? && low <= j.n <= high then Some(IntValue(j.n)) else None
    case OptShape(inner) =>
      if j.Null? then Some(NoValue)
      else (match Decode(j, inner)
            case Some(v) => Some(SomeValue(v))
            case None => None)
    case VecShape(item) =>
      if !j.Arr? then None
      else (match DecodeAll(j.items, item)
            case Some(vs) => Some(VecValue(vs))
            case None => None)
    case StructShape(fields, denyUnknown) =>
      var vs :=
        if j.Obj? then (if denyUnknown && HasUnknown(j.fields, fields) then None else DecodeFields(j.fields, fields))
        else if j.Arr? then DecodePositions(j.items, fields)
        else None;
      match vs
      case Some(values) => Some(StructValue(values))
      case None => None
  }

  predicate Named(name: string, fields: seq<Field>) {
    exists f :: f in fields && f.name == name
  }

  predicate HasUnknown(obj: map<string, Json>, fields: seq<Field>) {
    exists name :: name in obj && !Named(name, fields)
  }

  function DecodeAll(js: seq<Json>, s: Shape): Option<seq<Value>>
    decreases s, |js|
  {
    if js == [] then Some([])
    else
      match (Decode(js[0], s), DecodeAll(js[1..], s))
      case (Some(v), Some(vs)) => Some([v] + vs)
      case _ => None
  }

  /** A missing field is an error unless it is optional. */
  function DecodeField(obj: map<string, Json>, f: Field): Option<Value>
    decreases f, 1, obj
  {
    if f.name in obj then Decode(obj[f.name], f.shape)
    else if f.shape.OptShape? then Some(NoValue)
    else None
  }

  function DecodeFields(obj: map<string, Json>, fields: seq<Field>): Option<seq<Value>>
    decreases fields, 0, obj
  {
    if fields == [] then Some([])
    else
      match (DecodeField(obj, fields[0]), DecodeFields(obj, fields[1..]))
      case (Some(v), Some(vs)) => Some([v] + vs)
      case _ => None
  }

  function DecodePositions(js: seq<Json>, fields: seq<Field>): Option<seq<Value>>
    decreases fields, 0, js
  {
    if fields == [] then (if js == [] then Some([]) else None)
    else if js == [] then None
    else
      match (Decode(js[0], fields[0].shape), DecodePositions(js[1..], fields[1..]))
      case (Some(v), Some(vs)) => Some([v] + vs)
      case _ => None
  }

  datatype Payload = Payload(variant: Variant, value: Value)

  function FirstMatch(j: Json, vs: seq<Variant>): Option<Payload> {
    if vs == [] then None
    else
      match Decode(j, ShapeOf(vs[0]))
      case Some(value) => Some(Payload(vs[0], value))
      case None => FirstMatch(j, vs[1..])
  }

  function DecodePayload(j: Json): Option<Payload> {
    FirstMatch(j, VARIANTS)
  }
}
