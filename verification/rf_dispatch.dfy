/**
 * The decision table of `vendor_load_properties`: which override the
 * device codename and the RF-version code select, and the store and log
 * outcome of one run.
 */
module RfDispatch {
  import opened Wrappers
  import opened IntParse
  import opened PropKeys
  import opened PropertySpec

  /** What one run does to the store. */
  datatype Action =
    | FullOverride(id: Identity)       // the identity under all seven namespaces
    | ModelOverride(model: string)     // `ro.product.product.model` only
    | NoOverride                       // known code, other codename: silent
    | UnexpectedRfVersion(code: int)   // unknown code: error logged

  /** How one run ends. */
  datatype Outcome =
    | Loaded                           // the table was consulted without error
    | RfVersionLogged(code: int)       // "Unexpected RF version" logged with the code
    | RfVersionUnparsable              // the integer parse threw; nothing written

  datatype LoadResult = LoadResult(props: Store, outcome: Outcome)

  /** The RF-version codes the table recognises. */
  const KnownRfVersions: set<int> := {2, 11, 12, 13, 21, 22}
  /** The codes whose rows override the model of a OnePlus 9 or 9 Pro. */
  const OnePlusRfVersions: set<int> := {11, 12, 13, 21, 22}
  const OnePlusDevices: set<string> := {"OnePlus9", "OnePlus9Pro"}

  /** The identity the European Realme GT Master Edition reports. */
  const RealmeGtMasterEdition: Identity := Identity("RMX3363", "RMX3360", "Realme GT Master Edition")

  /**
   * The model rows as data, keyed by (RF-version code, codename): an
   * independent statement of the table that `Dispatch` writes as a switch.
   */
  const ModelTable: map<(int, string), string> := map[
    (11, "OnePlus9") := "LE2110", (11, "OnePlus9Pro") := "LE2120",
    (12, "OnePlus9") := "LE2117", (12, "OnePlus9Pro") := "LE2127",
    (13, "OnePlus9") := "LE2111", (13, "OnePlus9Pro") := "LE2121",
    (21, "OnePlus9") := "LE2113", (21, "OnePlus9Pro") := "LE2123",
    (22, "OnePlus9") := "LE2115", (22, "OnePlus9Pro") := "LE2125"
  ]

  /** One OnePlus row: the first model for the OnePlus 9, the second for the 9 Pro. */
  function OnePlusRow(device: string, oneplus9: string, oneplus9Pro: string): Action {
    if device == "OnePlus9" then ModelOverride(oneplus9)
    else if device == "OnePlus9Pro" then ModelOverride(oneplus9Pro)
    else NoOverride
  }

  /**
   * The switch on the RF-version code. An error is due exactly for the codes
   * outside the table; the full override exactly for code 2 on an RMX3360;
   * a model override exactly for a OnePlus 9 or 9 Pro under the other codes.
   */
  function Dispatch(rf: int, device: string): (a: Action)
    ensures a.UnexpectedRfVersion? <==> rf !in KnownRfVersions
    ensures a.UnexpectedRfVersion? ==> a.code == rf
    ensures a.FullOverride? <==> rf == 2 && device == "RMX3360"
    ensures a.FullOverride? ==> a.id == RealmeGtMasterEdition
    ensures a.ModelOverride? <==> rf in OnePlusRfVersions && device in OnePlusDevices
    ensures a.NoOverride? <==> rf in KnownRfVersions && !a.FullOverride? && !a.ModelOverride?
  {
    match rf
    case 2 => if device == "RMX3360" then FullOverride(RealmeGtMasterEdition) else NoOverride  // EU
    case 11 => OnePlusRow(device, "LE2110", "LE2120")  // CN
    case 12 => OnePlusRow(device, "LE2117", "LE2127")  // TMO
    case 13 => OnePlusRow(device, "LE2111", "LE2121")  // IN
    case 21 => OnePlusRow(device, "LE2113", "LE2123")  // EU
    case 22 => OnePlusRow(device, "LE2115", "LE2125")  // NA
    case _ => UnexpectedRfVersion(rf)
  }

  /** The switch and the data table agree on every model row, in both directions. */
  lemma DispatchMatchesTable(rf: int, device: string)
    ensures Dispatch(rf, device).ModelOverride? <==> (rf, device) in ModelTable
    ensures (rf, device) in ModelTable ==> Dispatch(rf, device).model == ModelTable[(rf, device)]
  {
  }

  /** The store after the action. */
  function Apply(m: Store, a: Action): Store {
    match a
    case FullOverride(id) => DeviceProps(m, id)
    case ModelOverride(model) => Override(m, ProductModelProp, model)
    case _ => m
  }

  /** The RF-version code as read and parsed, with "0" when the property is unset. */
  function RfVersion(m: Store): Option<int> {
    Stoi(GetProperty(m, RfVersionProp, "0"))
  }

  /** One run of `vendor_load_properties` on the store `m`. */
  function Load(m: Store): (r: LoadResult)
    ensures r.outcome.RfVersionUnparsable? <==> RfVersion(m).None?
    ensures r.outcome.RfVersionLogged? <==> RfVersion(m).Some? && RfVersion(m).value !in KnownRfVersions
    ensures r.outcome.RfVersionLogged? ==> r.outcome.code == RfVersion(m).value
    ensures !r.outcome.Loaded? ==> r.props == m
  {
    var device := GetProperty(m, DeviceProp, "");
    match RfVersion(m)
    case None => LoadResult(m, RfVersionUnparsable)
    case Some(rf) =>
      var a := Dispatch(rf, device);
      LoadResult(Apply(m, a), if a.UnexpectedRfVersion? then RfVersionLogged(rf) else Loaded)
  }

  /**
   * Code 2 on an RMX3360: every namespace reports the Realme GT Master
   * Edition identity, no key outside the 21 device keys changes, and the
   * run completes without an error.
   */
  lemma LoadFullOverride(m: Store)
    requires GetProperty(m, DeviceProp, "") == "RMX3360"
    requires RfVersion(m) == Some(2)
    ensures Load(m) == LoadResult(DeviceProps(m, RealmeGtMasterEdition), Loaded)
    ensures forall i :: 0 <= i < |Partitions| ==>
      HoldsIdentity(Load(m).props, Partitions[i], RealmeGtMasterEdition)
    ensures Load(m).props.Keys == m.Keys + DeviceKeys()
    ensures forall k :: k in m && k !in DeviceKeys() ==> Load(m).props[k] == m[k]
  {
    DevicePropsSpec(m, RealmeGtMasterEdition);
  }

  /**
   * A OnePlus 9 or 9 Pro under codes 11, 12, 13, 21 or 22: only
   * `ro.product.product.model` changes, to the table's entry.
   */
  lemma LoadModelOverride(m: Store, rf: int, device: string)
    requires GetProperty(m, DeviceProp, "") == device && device in OnePlusDevices
    requires RfVersion(m) == Some(rf) && rf in OnePlusRfVersions
    ensures (rf, device) in ModelTable
    ensures Load(m) == LoadResult(Override(m, ProductModelProp, ModelTable[(rf, device)]), Loaded)
    ensures forall k :: k != ProductModelProp ==> (k in Load(m).props <==> k in m)
    ensures forall k :: k in m && k != ProductModelProp ==> Load(m).props[k] == m[k]
  {
    DispatchMatchesTable(rf, device);
  }

  /** A known code with any other codename is a silent no-op. */
  lemma LoadOtherDevice(m: Store, rf: int)
    requires RfVersion(m) == Some(rf) && rf in KnownRfVersions
    requires rf == 2 ==> GetProperty(m, DeviceProp, "") != "RMX3360"
    requires rf != 2 ==> GetProperty(m, DeviceProp, "") !in OnePlusDevices
    ensures Load(m) == LoadResult(m, Loaded)
  {
  }

  /** An unknown code logs an error with that code and changes nothing. */
  lemma LoadUnknownRfVersion(m: Store, rf: int)
    requires RfVersion(m) == Some(rf) && rf !in KnownRfVersions
    ensures Load(m) == LoadResult(m, RfVersionLogged(rf))
  {
  }

  /**
   * Without an RF-version property (or with an empty one) the code read is
   * 0, which the table does not know: an error is logged and nothing changes.
   */
  lemma LoadWithoutRfVersion(m: Store)
    requires RfVersionProp !in m || m[RfVersionProp] == ""
    ensures Load(m) == LoadResult(m, RfVersionLogged(0))
  {
    StoiDecimal(0, []);
    assert Decimal(0) + [] == "0";
  }

  /** A OnePlus 9 whose bootloader reports code "11" (China) becomes an LE2110. */
  lemma LoadOnePlus9China(m: Store)
    requires DeviceProp in m && m[DeviceProp] == "OnePlus9"
    requires RfVersionProp in m && m[RfVersionProp] == "11"
    ensures Load(m) == LoadResult(m[ProductModelProp := "LE2110"], Loaded)
  {
    StoiDecimal(11, []);
    assert Decimal(11) + [] == "11";
  }

  /** A bootloader code of "99" is logged as unexpected and changes nothing. */
  lemma LoadRfVersion99(m: Store)
    requires RfVersionProp in m && m[RfVersionProp] == "99"
    ensures Load(m) == LoadResult(m, RfVersionLogged(99))
  {
    StoiDecimal(99, []);
    assert Decimal(99) + [] == "99";
  }

  /** Whatever the run does, it changes no key outside the 21 device keys. */
  lemma LoadFrame(m: Store)
    ensures Load(m).props.Keys <= m.Keys + DeviceKeys()
    ensures forall k :: k in m && k !in DeviceKeys() ==> k in Load(m).props && Load(m).props[k] == m[k]
  {
    match RfVersion(m)
    case None =>
    case Some(rf) => ApplyFrame(m, Dispatch(rf, GetProperty(m, DeviceProp, "")));
  }

  /** No action writes outside the device keys. */
  lemma ApplyFrame(m: Store, a: Action)
    ensures Apply(m, a).Keys <= m.Keys + DeviceKeys()
    ensures forall k :: k in m && k !in DeviceKeys() ==> k in Apply(m, a) && Apply(m, a)[k] == m[k]
  {
    match a
    case FullOverride(id) => DevicePropsSpec(m, id);
    case ModelOverride(model) => ModelPropIsDeviceKey();
    case _ =>
  }

  /** Performing an action on its own result changes nothing. */
  lemma ApplyIdempotent(m: Store, a: Action)
    ensures Apply(Apply(m, a), a) == Apply(m, a)
  {
    match a
    case FullOverride(id) => DevicePropsIdempotent(m, id);
    case _ =>
  }

  /** The run leaves the two properties it reads as they were. */
  lemma LoadKeepsInputs(m: Store)
    ensures GetProperty(Load(m).props, DeviceProp, "") == GetProperty(m, DeviceProp, "")
    ensures RfVersion(Load(m).props) == RfVersion(m)
  {
    LoadFrame(m);
    InputsNotDeviceKeys();
  }

  /** `ro.product.product.model` is among the device keys, so a model override stays inside them. */
  lemma ModelPropIsDeviceKey()
    ensures ProductModelProp in DeviceKeys()
  {
    ModelKeyShape();
    PartitionsWellFormed();
    KeysOfContains(Partitions, 3);
  }

  /**
   * Running the mapper on its own result gives the same store and the same
   * outcome: the two properties it reads are never among those it writes.
   */
  lemma LoadIdempotent(m: Store)
    ensures Load(Load(m).props) == Load(m)
  {
    LoadKeepsInputs(m);
    match RfVersion(m)
    case None =>
    case Some(rf) => ApplyIdempotent(m, Dispatch(rf, GetProperty(m, DeviceProp, "")));
  }
}
