/** Which answers fit each payload of the union, field by field and position by
    position, and what the union makes of them. */
module SsapShapes {
  import opened Wrappers
  import opened SsapPayloads
  import opened SsapProperties

  type Fields = map<string, Json>

  predicate Flag(obj: Fields, name: string) {
    name in obj && obj[name].Bool?
  }

  predicate Text(obj: Fields, name: string) {
    name in obj && obj[name].Str?
  }

  predicate IsByte(j: Json) {
    j.Int? && 0 <= j.n <= 255
  }

  predicate IsLong(j: Json) {
    j.Int? && -0x8000_0000_0000_0000 <= j.n <= 0x7fff_ffff_ffff_ffff
  }

  predicate MaybeFlag(obj: Fields, name: string) {
    name in obj ==> obj[name].Null? || obj[name].Bool?
  }

  predicate MaybeText(obj: Fields, name: string) {
    name in obj ==> obj[name].Null? || obj[name].Str?
  }

  predicate MaybeLong(obj: Fields, name: string) {
    name in obj ==> obj[name].Null? || IsLong(obj[name])
  }

  predicate OrNull(j: Json, fits: bool) {
    j.Null? || fits
  }

  // ------------------------------------------------------------ the nested records

  /** One external input, as an object or as an array. */
  predicate IsInput(j: Json) {
    match j
    case Obj(o) =>
      && Text(o, "id") && Text(o, "label") && ("port" in o && IsLong(o["port"])) && Flag(o, "connected")
      && MaybeText(o, "appId") && MaybeText(o, "icon") && MaybeFlag(o, "forceIcon") && MaybeFlag(o, "modified")
      && MaybeLong(o, "lastUniqueId") && MaybeFlag(o, "hdmiPlugIn") && MaybeLong(o, "subCount") && MaybeFlag(o, "favorite")
    case Arr(p) =>
      && |p| == 12
      && p[0].Str? && p[1].Str? && IsLong(p[2]) && p[3].Bool?
      && OrNull(p[4], p[4].Str?) && OrNull(p[5], p[5].Str?) && OrNull(p[6], p[6].Bool?) && OrNull(p[7], p[7].Bool?)
      && OrNull(p[8], IsLong(p[8])) && OrNull(p[9], p[9].Bool?) && OrNull(p[10], IsLong(p[10])) && OrNull(p[11], p[11].Bool?)
    case _ => false
  }

  predicate AreInputs(j: Json) {
    j.Arr? && forall k | 0 <= k < |j.items| :: IsInput(j.items[k])
  }

  predicate AreFeatures(j: Json) {
    match j
    case Obj(o) => MaybeFlag(o, "3d") && MaybeFlag(o, "dvr")
    case Arr(p) => |p| == 2 && OrNull(p[0], p[0].Bool?) && OrNull(p[1], p[1].Bool?)
    case _ => false
  }

  predicate IsVolumeStatus(j: Json) {
    match j
    case Obj(o) =>
      && MaybeFlag(o, "volumeLimitable") && MaybeFlag(o, "activeStatus") && ("maxVolume" in o && IsByte(o["maxVolume"]))
      && MaybeText(o, "volumeLimiter") && MaybeText(o, "soundOutput") && ("volume" in o && IsByte(o["volume"]))
      && MaybeText(o, "cause") && MaybeText(o, "mode") && MaybeFlag(o, "externalDeviceControl")
      && Flag(o, "muteStatus") && MaybeFlag(o, "volumeSyncable") && Flag(o, "adjustVolume")
    case Arr(p) =>
      && |p| == 12
      && OrNull(p[0], p[0].Bool?) && OrNull(p[1], p[1].Bool?) && IsByte(p[2])
      && OrNull(p[3], p[3].Str?) && OrNull(p[4], p[4].Str?) && IsByte(p[5])
      && OrNull(p[6], p[6].Str?) && OrNull(p[7], p[7].Str?) && OrNull(p[8], p[8].Bool?)
      && p[9].Bool? && OrNull(p[10], p[10].Bool?) && p[11].Bool?
    case _ => false
  }

  // ------------------------------------------------------------------ the variants

  /** An object has the fields of a variant: those it needs, with their types; those that
      may be absent absent, null, or of their types; and whatever else, but for the plain
      return value nothing else. */
  predicate ObjectFits(v: Variant, o: Fields) {
    && Flag(o, "returnValue")
    && match v
       case CurrentSwInfo =>
         && Text(o, "product_name") && Text(o, "model_name") && Text(o, "sw_type") && Text(o, "major_ver")
         && Text(o, "minor_ver") && Text(o, "country") && Text(o, "country_group") && Text(o, "device_id")
         && Text(o, "auth_flag") && Text(o, "ignore_disable") && Text(o, "eco_info") && Text(o, "config_key")
         && Text(o, "language_code")
       case GetExternalInputList => "devices" in o && AreInputs(o["devices"])
       case GetPowerState => Text(o, "state") && MaybeText(o, "processing")
       case GetSystemInfo =>
         && ("features" in o ==> OrNull(o["features"], AreFeatures(o["features"])))
         && Text(o, "receiverType") && Text(o, "modelName") && MaybeText(o, "serialNumber") && Flag(o, "programMode")
       case GetVolumeVariantA => "volumeStatus" in o && IsVolumeStatus(o["volumeStatus"]) && MaybeText(o, "callerId")
       case GetVolumeVariantB =>
         && ("volumeMax" in o && IsByte(o["volumeMax"])) && MaybeFlag(o, "ringtonewithvibration")
         && MaybeText(o, "scenario") && Flag(o, "muted") && MaybeFlag(o, "hac") && MaybeFlag(o, "subscribed")
         && ("volume" in o && IsByte(o["volume"])) && MaybeText(o, "action") && Flag(o, "supportvolume")
         && MaybeFlag(o, "ringer switch") && MaybeFlag(o, "slider") && MaybeFlag(o, "active")
       case Pair => Text(o, "pairingType")
       case PlainReturnValue => forall name | name in o :: name == "returnValue"
       case SetMute => Flag(o, "muteStatus") && Text(o, "soundOutput")
       case SetScreenOn => Text(o, "state")
       case SetVolume => ("volume" in o && IsByte(o["volume"])) && Text(o, "soundOutput")
  }

  /** An array has the fields of a variant position by position. */
  predicate ArrayFits(v: Variant, p: seq<Json>) {
    match v
    case CurrentSwInfo => |p| == 14 && p[0].Bool? && forall k | 1 <= k < 14 :: p[k].Str?
    case GetExternalInputList => |p| == 2 && p[0].Bool? && AreInputs(p[1])
    case GetPowerState => |p| == 3 && p[0].Str? && OrNull(p[1], p[1].Str?) && p[2].Bool?
    case GetSystemInfo =>
      |p| == 6 && p[0].Bool? && OrNull(p[1], AreFeatures(p[1])) && p[2].Str? && p[3].Str? && OrNull(p[4], p[4].Str?) && p[5].Bool?
    case GetVolumeVariantA => |p| == 3 && p[0].Bool? && IsVolumeStatus(p[1]) && OrNull(p[2], p[2].Str?)
    case GetVolumeVariantB =>
      && |p| == 13
      && p[0].Bool? && IsByte(p[1]) && OrNull(p[2], p[2].Bool?) && OrNull(p[3], p[3].Str?) && p[4].Bool?
      && OrNull(p[5], p[5].Bool?) && OrNull(p[6], p[6].Bool?) && IsByte(p[7]) && OrNull(p[8], p[8].Str?) && p[9].Bool?
      && OrNull(p[10], p[10].Bool?) && OrNull(p[11], p[11].Bool?) && OrNull(p[12], p[12].Bool?)
    case Pair => |p| == 2 && p[0].Str? && p[1].Bool?
    case PlainReturnValue => |p| == 1 && p[0].Bool?
    case SetMute => |p| == 3 && p[0].Bool? && p[1].Bool? && p[2].Str?
    case SetScreenOn => |p| == 2 && p[0].Bool? && p[1].Str?
    case SetVolume => |p| == 3 && p[0].Bool? && IsByte(p[1]) && p[2].Str?
  }

  predicate Fits(v: Variant, j: Json) {
    match j
    case Obj(o) => ObjectFits(v, o)
    case Arr(p) => ArrayFits(v, p)
    case _ => false
  }

  // ------------------------------------------------------------------- the proofs

  /** What each shape takes, whatever the nested records are. */
  predicate Takes(s: Shape, j: Json) {
    match s
    case BoolShape => j.Bool?
    case StrShape => j.Str?
    case IntShape(low, high) => j.Int? && low <= j.n <= high
    case OptShape(inner) => j.Null? || Decode(j, inner).Some?
    case VecShape(item) => j.Arr? && forall k | 0 <= k < |j.items| :: Decode(j.items[k], item).Some?
    case StructShape(_, _) => Decode(j, s).Some?
  }

  lemma ShapeTakes(s: Shape, j: Json)
    ensures Decode(j, s).Some? <==> Takes(s, j)
  {
    if s.VecShape? && j.Arr? {
      AllDecode(j.items, s.item);
    }
  }

  lemma {:induction false} AllDecode(js: seq<Json>, s: Shape)
    ensures DecodeAll(js, s).Some? <==> forall k | 0 <= k < |js| :: Decode(js[k], s).Some?
    decreases |js|
  {
    hide Decode;
    if js != [] {
      AllDecode(js[1..], s);
      assert forall k :: 0 <= k < |js| - 1 ==> js[1..][k] == js[k + 1];
      assert forall k :: 0 < k < |js| ==> js[k] == js[1..][k - 1];
    }
  }

  predicate Reads(o: Fields, f: Field) {
    if f.name in o then Decode(o[f.name], f.shape).Some? else f.shape.OptShape?
  }

  lemma {:induction false} FieldsDecode(o: Fields, fields: seq<Field>)
    ensures DecodeFields(o, fields).Some? <==> forall f | f in fields :: Reads(o, f)
  {
    if fields != [] {
      var head, rest := fields[0], fields[1..];
      FieldsDecode(o, rest);
      assert fields == [head] + rest;
      assert DecodeField(o, head).Some? <==> Reads(o, head);
      assert head in fields && forall f :: f in rest ==> f in fields;
      hide Decode, Reads, DecodeField;
    }
  }

  /** A struct reads an object by its fields, and denies others only if told to. */
  lemma StructReads(o: Fields, fields: seq<Field>, deny: bool)
    ensures Decode(Obj(o), StructShape(fields, deny)).Some? <==>
      (forall f | f in fields :: Reads(o, f)) && (deny ==> !HasUnknown(o, fields))
  {
    FieldsDecode(o, fields);
    hide HasUnknown, DecodeFields;
  }

  lemma StructTakes(p: seq<Json>, fields: seq<Field>, deny: bool)
    ensures Decode(Arr(p), StructShape(fields, deny)).Some? <==>
      |p| == |fields| && forall k :: 0 <= k < |p| ==> Decode(p[k], fields[k].shape).Some?
  {
    PositionsMatch(p, fields);
    hide DecodePositions;
  }

  /** What reading each kind of field comes to. */
  predicate Wants(o: Fields, f: Field) {
    match f.shape
    case BoolShape => Flag(o, f.name)
    case StrShape => Text(o, f.name)
    case IntShape(low, high) => f.name in o && o[f.name].Int? && low <= o[f.name].n <= high
    case OptShape(inner) => f.name in o ==> o[f.name].Null? || Takes(inner, o[f.name])
    case _ => f.name in o && Takes(f.shape, o[f.name])
  }

  lemma FieldWants(o: Fields, f: Field)
    ensures Reads(o, f) <==> Wants(o, f)
  {
    if f.name in o {
      ShapeTakes(f.shape, o[f.name]);
      if f.shape.OptShape? {
        ShapeTakes(f.shape.inner, o[f.name]);
      }
    }
    hide Decode;
  }

  lemma FieldsWant(o: Fields, fields: seq<Field>)
    ensures (forall f | f in fields :: Reads(o, f)) <==> (forall f | f in fields :: Wants(o, f))
  {
    forall f | f in fields
      ensures Reads(o, f) <==> Wants(o, f)
    {
      FieldWants(o, f);
    }
    hide Reads, Wants;
  }

  lemma PositionsTake(p: seq<Json>, fields: seq<Field>)
    requires |p| == |fields|
    ensures (forall k :: 0 <= k < |p| ==> Decode(p[k], fields[k].shape).Some?) <==>
      (forall k :: 0 <= k < |p| ==> Takes(fields[k].shape, p[k]))
  {
    forall k | 0 <= k < |p|
      ensures Decode(p[k], fields[k].shape).Some? <==> Takes(fields[k].shape, p[k])
    {
      ShapeTakes(fields[k].shape, p[k]);
    }
    hide Decode, Takes;
  }

  // ------------------------------------------------------- the nested records, proved

  lemma UpTo(n: nat, p: nat -> bool)
    requires n <= 14
    ensures (forall k: nat | k < n :: p(k)) <==>
      && (0 < n ==> p(0)) && (1 < n ==> p(1)) && (2 < n ==> p(2)) && (3 < n ==> p(3)) && (4 < n ==> p(4))
      && (5 < n ==> p(5)) && (6 < n ==> p(6)) && (7 < n ==> p(7)) && (8 < n ==> p(8)) && (9 < n ==> p(9))
      && (10 < n ==> p(10)) && (11 < n ==> p(11)) && (12 < n ==> p(12)) && (13 < n ==> p(13))
  {
  }

  /** The fields of a record one by one. */
  lemma OneByOne(o: Fields, fields: seq<Field>, p: nat -> bool)
    requires |fields| <= 14 && forall k: nat | k < |fields| :: p(k) == Wants(o, fields[k])
    ensures (forall f | f in fields :: Wants(o, f)) <==> forall k: nat | k < |fields| :: p(k)
  {
    assert forall k: nat :: k < |fields| ==> fields[k] in fields;
    hide Wants;
  }

  predicate TakeAll(p: seq<Json>, fields: seq<Field>) {
    |p| == |fields| && forall k :: 0 <= k < |p| ==> Takes(fields[k].shape, p[k])
  }

  lemma LengthsAgree(p: seq<Json>, fields: seq<Field>)
    ensures TakeAll(p, fields) ==> |p| == |fields|
  {
  }

  lemma TakesOneByOne(p: seq<Json>, fields: seq<Field>, n: nat, q: nat -> bool)
    requires |fields| == n <= 14 && (|p| == n ==> forall k: nat | k < n :: q(k) == Takes(fields[k].shape, p[k]))
    ensures |p| == n ==> (TakeAll(p, fields) <==> forall k: nat | k < n :: q(k))
  {
    if |p| == n && TakeAll(p, fields) {
      forall k: nat | k < n
        ensures q(k)
      {
        assert q(k) == Takes(fields[k].shape, p[k]);
      }
    }
    if |p| == n && forall k: nat | k < n :: q(k) {
      forall k | 0 <= k < |p|
        ensures Takes(fields[k].shape, p[k])
      {
        assert q(k);
      }
    }
    hide Takes;
  }

  lemma InputFields()
    ensures |EXTERNAL_INPUT| == 12
    ensures EXTERNAL_INPUT[0] == Field("id", StrShape)
    ensures EXTERNAL_INPUT[1] == Field("label", StrShape)
    ensures EXTERNAL_INPUT[2] == Field("port", I64)
    ensures EXTERNAL_INPUT[3] == Field("connected", BoolShape)
    ensures EXTERNAL_INPUT[4] == Field("appId", OptShape(StrShape))
    ensures EXTERNAL_INPUT[5] == Field("icon", OptShape(StrShape))
    ensures EXTERNAL_INPUT[6] == Field("forceIcon", OptShape(BoolShape))
    ensures EXTERNAL_INPUT[7] == Field("modified", OptShape(BoolShape))
    ensures EXTERNAL_INPUT[8] == Field("lastUniqueId", OptShape(I64))
    ensures EXTERNAL_INPUT[9] == Field("hdmiPlugIn", OptShape(BoolShape))
    ensures EXTERNAL_INPUT[10] == Field("subCount", OptShape(I64))
    ensures EXTERNAL_INPUT[11] == Field("favorite", OptShape(BoolShape))
  {
  }

  lemma InputWants(o: Fields)
    ensures (forall f | f in EXTERNAL_INPUT :: Wants(o, f)) <==> IsInput(Obj(o))
  {
    InputFields();
    hide EXTERNAL_INPUT;
    var p := (k: nat) => k < 12 && Wants(o, EXTERNAL_INPUT[k]);
    OneByOne(o, EXTERNAL_INPUT, p);
    UpTo(12, p);
  }

  lemma InputTakes(p: seq<Json>)
    ensures TakeAll(p, EXTERNAL_INPUT) <==> IsInput(Arr(p))
  {
    InputFields();
    hide EXTERNAL_INPUT;
    var q := (k: nat) => k < 12 && k < |p| && Takes(EXTERNAL_INPUT[k].shape, p[k]);
    TakesOneByOne(p, EXTERNAL_INPUT, 12, q);
    UpTo(12, q);
    hide TakeAll;
    assert |p| != 12 ==> !TakeAll(p, EXTERNAL_INPUT) by { LengthsAgree(p, EXTERNAL_INPUT); }
  }

  lemma FeaturesWant(o: Fields)
    ensures (forall f | f in FEATURES :: Wants(o, f)) <==> AreFeatures(Obj(o))
  {
    var p := (k: nat) => k < 2 && Wants(o, FEATURES[k]);
    OneByOne(o, FEATURES, p);
    UpTo(2, p);
  }

  lemma FeaturesTake(p: seq<Json>)
    ensures TakeAll(p, FEATURES) <==> AreFeatures(Arr(p))
  {
    var q := (k: nat) => k < 2 && k < |p| && Takes(FEATURES[k].shape, p[k]);
    TakesOneByOne(p, FEATURES, 2, q);
    UpTo(2, q);
    hide TakeAll;
    assert |p| != 2 ==> !TakeAll(p, FEATURES) by { LengthsAgree(p, FEATURES); }
  }

  lemma VolumeStatusFields()
    ensures |VOLUME_STATUS| == 12
    ensures VOLUME_STATUS[0] == Field("volumeLimitable", OptShape(BoolShape))
    ensures VOLUME_STATUS[1] == Field("activeStatus", OptShape(BoolShape))
    ensures VOLUME_STATUS[2] == Field("maxVolume", U8)
    ensures VOLUME_STATUS[3] == Field("volumeLimiter", OptShape(StrShape))
    ensures VOLUME_STATUS[4] == Field("soundOutput", OptShape(StrShape))
    ensures VOLUME_STATUS[5] == Field("volume", U8)
    ensures VOLUME_STATUS[6] == Field("cause", OptShape(StrShape))
    ensures VOLUME_STATUS[7] == Field("mode", OptShape(StrShape))
    ensures VOLUME_STATUS[8] == Field("externalDeviceControl", OptShape(BoolShape))
    ensures VOLUME_STATUS[9] == Field("muteStatus", BoolShape)
    ensures VOLUME_STATUS[10] == Field("volumeSyncable", OptShape(BoolShape))
    ensures VOLUME_STATUS[11] == Field("adjustVolume", BoolShape)
  {
  }

  lemma VolumeStatusWants(o: Fields)
    ensures (forall f | f in VOLUME_STATUS :: Wants(o, f)) <==> IsVolumeStatus(Obj(o))
  {
    VolumeStatusFields();
    hide VOLUME_STATUS;
    var p := (k: nat) => k < 12 && Wants(o, VOLUME_STATUS[k]);
    OneByOne(o, VOLUME_STATUS, p);
    UpTo(12, p);
  }

  lemma VolumeStatusTakes(p: seq<Json>)
    ensures TakeAll(p, VOLUME_STATUS) <==> IsVolumeStatus(Arr(p))
  {
    VolumeStatusFields();
    hide VOLUME_STATUS;
    var q := (k: nat) => k < 12 && k < |p| && Takes(VOLUME_STATUS[k].shape, p[k]);
    TakesOneByOne(p, VOLUME_STATUS, 12, q);
    UpTo(12, q);
    hide TakeAll;
    assert |p| != 12 ==> !TakeAll(p, VOLUME_STATUS) by { LengthsAgree(p, VOLUME_STATUS); }
  }

  lemma StructDecodes(j: Json, fields: seq<Field>, deny: bool)
    ensures Decode(j, StructShape(fields, deny)).Some? <==>
      match j
      case Obj(o) => (forall f | f in fields :: Wants(o, f)) && (deny ==> !HasUnknown(o, fields))
      case Arr(p) => TakeAll(p, fields)
      case _ => false
  {
    match j
    case Obj(o) =>
      StructReads(o, fields, deny);
      FieldsWant(o, fields);
      hide Wants, Reads, Decode, HasUnknown;
    case Arr(p) =>
      StructTakes(p, fields, deny);
      if |p| == |fields| {
        PositionsTake(p, fields);
      }
      hide Takes, Decode;
    case _ =>
  }

  lemma InputDecodes(j: Json)
    ensures Decode(j, StructShape(EXTERNAL_INPUT, false)).Some? <==> IsInput(j)
  {
    StructDecodes(j, EXTERNAL_INPUT, false);
    match j
    case Obj(o) =>
      InputWants(o);
      hide IsInput, Wants, Decode;
    case Arr(p) =>
      InputTakes(p);
      hide IsInput, TakeAll, Decode;
    case _ => hide Decode;
  }

  lemma FeaturesDecode(j: Json)
    ensures Decode(j, StructShape(FEATURES, false)).Some? <==> AreFeatures(j)
  {
    StructDecodes(j, FEATURES, false);
    match j
    case Obj(o) =>
      FeaturesWant(o);
      hide AreFeatures, Wants, Decode;
    case Arr(p) =>
      FeaturesTake(p);
      hide AreFeatures, TakeAll, Decode;
    case _ => hide Decode;
  }

  lemma VolumeStatusDecodes(j: Json)
    ensures Decode(j, StructShape(VOLUME_STATUS, false)).Some? <==> IsVolumeStatus(j)
  {
    StructDecodes(j, VOLUME_STATUS, false);
    match j
    case Obj(o) =>
      VolumeStatusWants(o);
      hide IsVolumeStatus, Wants, Decode;
    case Arr(p) =>
      VolumeStatusTakes(p);
      hide IsVolumeStatus, TakeAll, Decode;
    case _ => hide Decode;
  }

  lemma InputsTaken(j: Json)
    ensures Takes(VecShape(StructShape(EXTERNAL_INPUT, false)), j) <==> AreInputs(j)
  {
    if j.Arr? {
      forall k | 0 <= k < |j.items|
        ensures Decode(j.items[k], StructShape(EXTERNAL_INPUT, false)).Some? <==> IsInput(j.items[k])
      {
        InputDecodes(j.items[k]);
      }
    }
    hide Decode, IsInput;
  }

  lemma FeaturesTaken(j: Json)
    ensures Takes(StructShape(FEATURES, false), j) <==> AreFeatures(j)
  {
    FeaturesDecode(j);
    hide Decode, AreFeatures;
  }

  lemma VolumeStatusTaken(j: Json)
    ensures Takes(StructShape(VOLUME_STATUS, false), j) <==> IsVolumeStatus(j)
  {
    VolumeStatusDecodes(j);
    hide Decode, IsVolumeStatus;
  }

  // ------------------------------------------------------------- the variants, proved

  lemma SwInfoFields()
    ensures |CURRENT_SW_INFO| == 14
    ensures CURRENT_SW_INFO[0] == RETURN_VALUE
    ensures CURRENT_SW_INFO[1] == Field("product_name", StrShape)
    ensures CURRENT_SW_INFO[2] == Field("model_name", StrShape)
    ensures CURRENT_SW_INFO[3] == Field("sw_type", StrShape)
    ensures CURRENT_SW_INFO[4] == Field("major_ver", StrShape)
    ensures CURRENT_SW_INFO[5] == Field("minor_ver", StrShape)
    ensures CURRENT_SW_INFO[6] == Field("country", StrShape)
    ensures CURRENT_SW_INFO[7] == Field("country_group", StrShape)
    ensures CURRENT_SW_INFO[8] == Field("device_id", StrShape)
    ensures CURRENT_SW_INFO[9] == Field("auth_flag", StrShape)
    ensures CURRENT_SW_INFO[10] == Field("ignore_disable", StrShape)
    ensures CURRENT_SW_INFO[11] == Field("eco_info", StrShape)
    ensures CURRENT_SW_INFO[12] == Field("config_key", StrShape)
    ensures CURRENT_SW_INFO[13] == Field("language_code", StrShape)
  {
  }

  lemma SwInfoWants(o: Fields)
    ensures (forall f | f in CURRENT_SW_INFO :: Wants(o, f)) <==> ObjectFits(CurrentSwInfo, o)
  {
    SwInfoFields();
    hide CURRENT_SW_INFO;
    var p := (k: nat) => k < 14 && Wants(o, CURRENT_SW_INFO[k]);
    OneByOne(o, CURRENT_SW_INFO, p);
    UpTo(14, p);
  }

  lemma SwInfoTakes(p: seq<Json>)
    ensures TakeAll(p, CURRENT_SW_INFO) <==> ArrayFits(CurrentSwInfo, p)
  {
    SwInfoFields();
    LengthsAgree(p, CURRENT_SW_INFO);
    hide CURRENT_SW_INFO, TakeAll;
    var q := (k: nat) => k < 14 && k < |p| && Takes(CURRENT_SW_INFO[k].shape, p[k]);
    TakesOneByOne(p, CURRENT_SW_INFO, 14, q);
    UpTo(14, q);
  }

  lemma InputListWants(o: Fields)
    ensures (forall f | f in GET_EXTERNAL_INPUT_LIST :: Wants(o, f)) <==> ObjectFits(GetExternalInputList, o)
  {
    if "devices" in o {
      InputsTaken(o["devices"]);
    }
    hide Decode, AreInputs, AreFeatures, IsVolumeStatus, EXTERNAL_INPUT, FEATURES, VOLUME_STATUS;
    var p := (k: nat) => k < 2 && Wants(o, GET_EXTERNAL_INPUT_LIST[k]);
    OneByOne(o, GET_EXTERNAL_INPUT_LIST, p);
    UpTo(2, p);
  }

  lemma InputListTakes(p: seq<Json>)
    ensures TakeAll(p, GET_EXTERNAL_INPUT_LIST) <==> ArrayFits(GetExternalInputList, p)
  {
    if |p| == 2 {
      InputsTaken(p[1]);
    }
    LengthsAgree(p, GET_EXTERNAL_INPUT_LIST);
    hide Decode, AreInputs, AreFeatures, IsVolumeStatus, EXTERNAL_INPUT, FEATURES, VOLUME_STATUS, TakeAll;
    var q := (k: nat) => k < 2 && k < |p| && Takes(GET_EXTERNAL_INPUT_LIST[k].shape, p[k]);
    TakesOneByOne(p, GET_EXTERNAL_INPUT_LIST, 2, q);
    UpTo(2, q);
  }

  lemma PowerStateWants(o: Fields)
    ensures (forall f | f in GET_POWER_STATE :: Wants(o, f)) <==> ObjectFits(GetPowerState, o)
  {
    var p := (k: nat) => k < 3 && Wants(o, GET_POWER_STATE[k]);
    OneByOne(o, GET_POWER_STATE, p);
    UpTo(3, p);
  }

  lemma PowerStateTakes(p: seq<Json>)
    ensures TakeAll(p, GET_POWER_STATE) <==> ArrayFits(GetPowerState, p)
  {
    LengthsAgree(p, GET_POWER_STATE);
    hide TakeAll;
    var q := (k: nat) => k < 3 && k < |p| && Takes(GET_POWER_STATE[k].shape, p[k]);
    TakesOneByOne(p, GET_POWER_STATE, 3, q);
    UpTo(3, q);
  }

  lemma SystemInfoWants(o: Fields)
    ensures (forall f | f in GET_SYSTEM_INFO :: Wants(o, f)) <==> ObjectFits(GetSystemInfo, o)
  {
    if "features" in o {
      FeaturesTaken(o["features"]);
    }
    hide Decode, AreInputs, AreFeatures, IsVolumeStatus, EXTERNAL_INPUT, FEATURES, VOLUME_STATUS;
    var p := (k: nat) => k < 6 && Wants(o, GET_SYSTEM_INFO[k]);
    OneByOne(o, GET_SYSTEM_INFO, p);
    UpTo(6, p);
  }

  lemma SystemInfoTakes(p: seq<Json>)
    ensures TakeAll(p, GET_SYSTEM_INFO) <==> ArrayFits(GetSystemInfo, p)
  {
    if |p| == 6 {
      FeaturesTaken(p[1]);
    }
    LengthsAgree(p, GET_SYSTEM_INFO);
    hide Decode, AreInputs, AreFeatures, IsVolumeStatus, EXTERNAL_INPUT, FEATURES, VOLUME_STATUS, TakeAll;
    var q := (k: nat) => k < 6 && k < |p| && Takes(GET_SYSTEM_INFO[k].shape, p[k]);
    TakesOneByOne(p, GET_SYSTEM_INFO, 6, q);
    UpTo(6, q);
  }

  lemma VolumeAWants(o: Fields)
    ensures (forall f | f in GET_VOLUME_A :: Wants(o, f)) <==> ObjectFits(GetVolumeVariantA, o)
  {
    if "volumeStatus" in o {
      VolumeStatusTaken(o["volumeStatus"]);
    }
    hide Decode, AreInputs, AreFeatures, IsVolumeStatus, EXTERNAL_INPUT, FEATURES, VOLUME_STATUS;
    var p := (k: nat) => k < 3 && Wants(o, GET_VOLUME_A[k]);
    OneByOne(o, GET_VOLUME_A, p);
    UpTo(3, p);
  }

  lemma VolumeATakes(p: seq<Json>)
    ensures TakeAll(p, GET_VOLUME_A) <==> ArrayFits(GetVolumeVariantA, p)
  {
    if |p| == 3 {
      VolumeStatusTaken(p[1]);
    }
    LengthsAgree(p, GET_VOLUME_A);
    hide Decode, AreInputs, AreFeatures, IsVolumeStatus, EXTERNAL_INPUT, FEATURES, VOLUME_STATUS, TakeAll;
    var q := (k: nat) => k < 3 && k < |p| && Takes(GET_VOLUME_A[k].shape, p[k]);
    TakesOneByOne(p, GET_VOLUME_A, 3, q);
    UpTo(3, q);
  }

  lemma VolumeBFields()
    ensures |GET_VOLUME_B| == 13
    ensures GET_VOLUME_B[0] == RETURN_VALUE
    ensures GET_VOLUME_B[1] == Field("volumeMax", U8)
    ensures GET_VOLUME_B[2] == Field("ringtonewithvibration", OptShape(BoolShape))
    ensures GET_VOLUME_B[3] == Field("scenario", OptShape(StrShape))
    ensures GET_VOLUME_B[4] == Field("muted", BoolShape)
    ensures GET_VOLUME_B[5] == Field("hac", OptShape(BoolShape))
    ensures GET_VOLUME_B[6] == Field("subscribed", OptShape(BoolShape))
    ensures GET_VOLUME_B[7] == Field("volume", U8)
    ensures GET_VOLUME_B[8] == Field("action", OptShape(StrShape))
    ensures GET_VOLUME_B[9] == Field("supportvolume", BoolShape)
    ensures GET_VOLUME_B[10] == Field("ringer switch", OptShape(BoolShape))
    ensures GET_VOLUME_B[11] == Field("slider", OptShape(BoolShape))
    ensures GET_VOLUME_B[12] == Field("active", OptShape(BoolShape))
  {
  }

  lemma VolumeBWants(o: Fields)
    ensures (forall f | f in GET_VOLUME_B :: Wants(o, f)) <==> ObjectFits(GetVolumeVariantB, o)
  {
    VolumeBFields();
    hide GET_VOLUME_B;
    var p := (k: nat) => k < 13 && Wants(o, GET_VOLUME_B[k]);
    OneByOne(o, GET_VOLUME_B, p);
    UpTo(13, p);
  }

  lemma VolumeBTakes(p: seq<Json>)
    ensures TakeAll(p, GET_VOLUME_B) <==> ArrayFits(GetVolumeVariantB, p)
  {
    VolumeBFields();
    LengthsAgree(p, GET_VOLUME_B);
    hide GET_VOLUME_B, TakeAll;
    var q := (k: nat) => k < 13 && k < |p| && Takes(GET_VOLUME_B[k].shape, p[k]);
    TakesOneByOne(p, GET_VOLUME_B, 13, q);
    UpTo(13, q);
  }

  lemma PairWants(o: Fields)
    ensures (forall f | f in PAIR :: Wants(o, f)) <==> ObjectFits(Pair, o)
  {
    var p := (k: nat) => k < 2 && Wants(o, PAIR[k]);
    OneByOne(o, PAIR, p);
    UpTo(2, p);
  }

  lemma PairTakes(p: seq<Json>)
    ensures TakeAll(p, PAIR) <==> ArrayFits(Pair, p)
  {
    LengthsAgree(p, PAIR);
    hide TakeAll;
    var q := (k: nat) => k < 2 && k < |p| && Takes(PAIR[k].shape, p[k]);
    TakesOneByOne(p, PAIR, 2, q);
    UpTo(2, q);
  }

  lemma PlainWants(o: Fields)
    ensures (forall f | f in PLAIN_RETURN_VALUE :: Wants(o, f)) && !HasUnknown(o, PLAIN_RETURN_VALUE) <==> ObjectFits(PlainReturnValue, o)
  {
    UnknownIsOther(o);
    hide HasUnknown;
    var p := (k: nat) => k < 1 && Wants(o, PLAIN_RETURN_VALUE[k]);
    OneByOne(o, PLAIN_RETURN_VALUE, p);
    UpTo(1, p);
  }

  lemma PlainTakes(p: seq<Json>)
    ensures TakeAll(p, PLAIN_RETURN_VALUE) <==> ArrayFits(PlainReturnValue, p)
  {
    LengthsAgree(p, PLAIN_RETURN_VALUE);
    hide TakeAll;
    var q := (k: nat) => k < 1 && k < |p| && Takes(PLAIN_RETURN_VALUE[k].shape, p[k]);
    TakesOneByOne(p, PLAIN_RETURN_VALUE, 1, q);
    UpTo(1, q);
  }

  lemma MuteWants(o: Fields)
    ensures (forall f | f in SET_MUTE :: Wants(o, f)) <==> ObjectFits(SetMute, o)
  {
    var p := (k: nat) => k < 3 && Wants(o, SET_MUTE[k]);
    OneByOne(o, SET_MUTE, p);
    UpTo(3, p);
  }

  lemma MuteTakes(p: seq<Json>)
    ensures TakeAll(p, SET_MUTE) <==> ArrayFits(SetMute, p)
  {
    LengthsAgree(p, SET_MUTE);
    hide TakeAll;
    var q := (k: nat) => k < 3 && k < |p| && Takes(SET_MUTE[k].shape, p[k]);
    TakesOneByOne(p, SET_MUTE, 3, q);
    UpTo(3, q);
  }

  lemma ScreenOnWants(o: Fields)
    ensures (forall f | f in SET_SCREEN_ON :: Wants(o, f)) <==> ObjectFits(SetScreenOn, o)
  {
    var p := (k: nat) => k < 2 && Wants(o, SET_SCREEN_ON[k]);
    OneByOne(o, SET_SCREEN_ON, p);
    UpTo(2, p);
  }

  lemma ScreenOnTakes(p: seq<Json>)
    ensures TakeAll(p, SET_SCREEN_ON) <==> ArrayFits(SetScreenOn, p)
  {
    LengthsAgree(p, SET_SCREEN_ON);
    hide TakeAll;
    var q := (k: nat) => k < 2 && k < |p| && Takes(SET_SCREEN_ON[k].shape, p[k]);
    TakesOneByOne(p, SET_SCREEN_ON, 2, q);
    UpTo(2, q);
  }

  lemma VolumeWants(o: Fields)
    ensures (forall f | f in SET_VOLUME :: Wants(o, f)) <==> ObjectFits(SetVolume, o)
  {
    var p := (k: nat) => k < 3 && Wants(o, SET_VOLUME[k]);
    OneByOne(o, SET_VOLUME, p);
    UpTo(3, p);
  }

  lemma VolumeTakes(p: seq<Json>)
    ensures TakeAll(p, SET_VOLUME) <==> ArrayFits(SetVolume, p)
  {
    LengthsAgree(p, SET_VOLUME);
    hide TakeAll;
    var q := (k: nat) => k < 3 && k < |p| && Takes(SET_VOLUME[k].shape, p[k]);
    TakesOneByOne(p, SET_VOLUME, 3, q);
    UpTo(3, q);
  }

  lemma UnknownIsOther(o: Fields)
    ensures HasUnknown(o, PLAIN_RETURN_VALUE) <==> exists name :: name in o && name != "returnValue"
  {
    assert forall name :: Named(name, PLAIN_RETURN_VALUE) <==> name == "returnValue" by {
      assert RETURN_VALUE in PLAIN_RETURN_VALUE;
    }
  }

  lemma ObjectFitsExactly(v: Variant, o: Fields)
    ensures Decode(Obj(o), ShapeOf(v)).Some? <==> ObjectFits(v, o)
  {
    StructDecodes(Obj(o), FieldsOf(v), v == PlainReturnValue);
    hide Decode, Wants, ObjectFits, HasUnknown;
    match v
    case CurrentSwInfo => SwInfoWants(o);
    case GetExternalInputList => InputListWants(o);
    case GetPowerState => PowerStateWants(o);
    case GetSystemInfo => SystemInfoWants(o);
    case GetVolumeVariantA => VolumeAWants(o);
    case GetVolumeVariantB => VolumeBWants(o);
    case Pair => PairWants(o);
    case PlainReturnValue => PlainWants(o);
    case SetMute => MuteWants(o);
    case SetScreenOn => ScreenOnWants(o);
    case SetVolume => VolumeWants(o);
  }

  lemma ArrayFitsExactly(v: Variant, p: seq<Json>)
    ensures Decode(Arr(p), ShapeOf(v)).Some? <==> ArrayFits(v, p)
  {
    StructDecodes(Arr(p), FieldsOf(v), v == PlainReturnValue);
    hide Decode, TakeAll, ArrayFits;
    match v
    case CurrentSwInfo => SwInfoTakes(p);
    case GetExternalInputList => InputListTakes(p);
    case GetPowerState => PowerStateTakes(p);
    case GetSystemInfo => SystemInfoTakes(p);
    case GetVolumeVariantA => VolumeATakes(p);
    case GetVolumeVariantB => VolumeBTakes(p);
    case Pair => PairTakes(p);
    case PlainReturnValue => PlainTakes(p);
    case SetMute => MuteTakes(p);
    case SetScreenOn => ScreenOnTakes(p);
    case SetVolume => VolumeTakes(p);
  }

  /** Main result: the answers that decode as a variant are exactly the objects with its
      fields and the arrays with its positions. */
  lemma FitsExactly(v: Variant, j: Json)
    ensures Decode(j, ShapeOf(v)).Some? <==> Fits(v, j)
  {
    match j
    case Obj(o) => ObjectFitsExactly(v, o);
    case Arr(p) => ArrayFitsExactly(v, p);
    case _ =>
  }

  /** Main result: the union reads an answer if and only if it fits some variant, and then
      as the first that it fits. */
  lemma UnionReads(j: Json)
    ensures DecodePayload(j).Some? <==> exists v :: Fits(v, j)
    ensures forall v :: (DecodePayload(j).Some? && DecodePayload(j).value.variant == v) <==>
      Fits(v, j) && forall e | Order(e) < Order(v) :: !Fits(e, j)
  {
    forall v
      ensures Decode(j, ShapeOf(v)).Some? <==> Fits(v, j)
    {
      FitsExactly(v, j);
    }
    hide Decode, Fits, ShapeOf, Order;
    forall v
      ensures (DecodePayload(j).Some? && DecodePayload(j).value.variant == v) <==>
        Fits(v, j) && forall e | Order(e) < Order(v) :: !Fits(e, j)
    {
      UnionPicks(j, v);
    }
    SomeFitIsFirst(j);
    if DecodePayload(j).Some? {
      assert Fits(DecodePayload(j).value.variant, j);
    }
  }

  lemma UnionPicks(j: Json, v: Variant)
    ensures (DecodePayload(j).Some? && DecodePayload(j).value.variant == v) <==>
      Decode(j, ShapeOf(v)).Some? && forall e | Order(e) < Order(v) :: Decode(j, ShapeOf(e)) == None
  {
    hide Decode, ShapeOf, DecodePayload, Order;
    if DecodePayload(j).Some? {
      FirstMatchWins(j, DecodePayload(j).value.variant, DecodePayload(j).value.value);
    }
    if Decode(j, ShapeOf(v)).Some? {
      FirstMatchWins(j, v, Decode(j, ShapeOf(v)).value);
    }
  }

  /** If some variant fits, the union reads the answer. */
  lemma SomeFitIsFirst(j: Json)
    ensures (exists v :: Fits(v, j)) ==> DecodePayload(j).Some?
  {
    if v :| Fits(v, j) {
      FitsExactly(v, j);
      NoneFits(j, VARIANTS);
      OrderIsPosition(v);
      assert v in VARIANTS;
      hide Decode, ShapeOf, Fits;
    }
  }

  lemma {:induction false} NoneFits(j: Json, vs: seq<Variant>)
    ensures FirstMatch(j, vs) == None ==> forall v | v in vs :: Decode(j, ShapeOf(v)) == None
    decreases |vs|
  {
    hide Decode, ShapeOf;
    if vs != [] {
      NoneFits(j, vs[1..]);
      assert vs == [vs[0]] + vs[1..];
    }
  }
}
