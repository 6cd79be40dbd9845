/**
 * The vendor init hook itself: the override primitive, the key builder,
 * the loop over partition namespaces and the RF-version switch, as methods
 * that change a property area in place, each proved to have the effect its
 * specification function describes.
 */
module InitOplus {
  import opened IntParse
  import opened PropKeys
  import opened PropertySpec
  import opened RfDispatch

  /** The platform's process-wide property area, reduced to its contents. */
  class PropertyArea {
    var props: Store

    constructor (initial: Store)
      ensures props == initial
    {
      props := initial;
    }

    /** `__system_property_find`: whether the area holds an entry named `name`. */
    method Find(name: string) returns (found: bool)
      ensures found <==> name in props
    {
      found := name in props;
    }

    /** `__system_property_update`: replaces the value of an existing entry. */
    method Update(name: string, value: string)
      requires name in props
      modifies this
      ensures props == old(props)[name := value]
    {
      props := props[name := value];
    }

    /** `__system_property_add`: creates an entry that does not exist yet. */
    method Add(name: string, value: string)
      requires name !in props
      modifies this
      ensures props == old(props)[name := value]
    {
      props := props[name := value];
    }
  }

  /**
   * Sets `name` to `value` regardless of any read-only marking: the entry is
   * updated when it exists and added otherwise.
   */
  method OverrideProperty(area: PropertyArea, name: string, value: string)
    modifies area
    ensures area.props == Override(old(area.props), name, value)
  {
    var found := area.Find(name);
    if found {
      area.Update(name, value);
    } else {
      area.Add(name, value);
    }
  }

  /** Overrides the build property `prop` of the namespace `source`. */
  method SetRoBuildProp(area: PropertyArea, source: string, prop: string, value: string, product: bool := true)
    modifies area
    ensures area.props == Override(old(area.props), BuildPropName(source, prop, product), value)
  {
    var propName := BuildPropName(source, prop, product);
    OverrideProperty(area, propName, value);
  }

  /**
   * Writes model, name and marketname under each of the seven partition
   * namespaces: afterwards every namespace reports the identity, and no
   * key outside the 21 device keys has changed.
   */
  method SetDeviceProps(area: PropertyArea, model: string, name: string, marketname: string)
    modifies area
    ensures area.props == DeviceProps(old(area.props), Identity(model, name, marketname))
    ensures forall i :: 0 <= i < |Partitions| ==>
      HoldsIdentity(area.props, Partitions[i], Identity(model, name, marketname))
    ensures area.props.Keys == old(area.props).Keys + DeviceKeys()
    ensures forall k :: k in old(area.props) && k !in DeviceKeys() ==> area.props[k] == old(area.props)[k]
  {
    ghost var id := Identity(model, name, marketname);
    var sourcePartitions := Partitions;
    for i := 0 to |sourcePartitions|
      invariant area.props == WriteAll(old(area.props), sourcePartitions[..i], id)
    {
      var source := sourcePartitions[i];
      ghost var before := area.props;
      SetRoBuildProp(area, source, "model", model);
      SetRoBuildProp(area, source, "name", name);
      SetRoBuildProp(area, source, "marketname", marketname);
      assert area.props == WriteIdentity(before, source, id);
      WriteAllStep(old(area.props), sourcePartitions, i, id);
    }
    assert sourcePartitions[..|sourcePartitions|] == sourcePartitions;
    DevicePropsSpec(old(area.props), id);
  }

  /**
   * Reads the device codename and the RF-version code and applies the row of
   * the table they select. The new store and the outcome (including the
   * error logged for an unknown code) are those of `Load`.
   */
  method VendorLoadProperties(area: PropertyArea) returns (outcome: Outcome)
    modifies area
    ensures LoadResult(area.props, outcome) == Load(old(area.props))
  {
    var device := GetProperty(area.props, DeviceProp, "");
    var rfVersion := Stoi(GetProperty(area.props, RfVersionProp, "0"));
    if rfVersion.None? {
      return RfVersionUnparsable;
    }
    var rf := rfVersion.value;
    outcome := Loaded;
    match rf
    case 2 =>  // EU
      if device == "RMX3360" {
        SetDeviceProps(area, "RMX3363", "RMX3360", "Realme GT Master Edition");
      }
    case 11 =>  // CN
      if device == "OnePlus9" {
        OverrideProperty(area, ProductModelProp, "LE2110");
      } else if device == "OnePlus9Pro" {
        OverrideProperty(area, ProductModelProp, "LE2120");
      }
    case 12 =>  // TMO
      if device == "OnePlus9" {
        OverrideProperty(area, ProductModelProp, "LE2117");
      } else if device == "OnePlus9Pro" {
        OverrideProperty(area, ProductModelProp, "LE2127");
      }
    case 13 =>  // IN
      if device == "OnePlus9" {
        OverrideProperty(area, ProductModelProp, "LE2111");
      } else if device == "OnePlus9Pro" {
        OverrideProperty(area, ProductModelProp, "LE2121");
      }
    case 21 =>  // EU
      if device == "OnePlus9" {
        OverrideProperty(area, ProductModelProp, "LE2113");
      } else if device == "OnePlus9Pro" {
        OverrideProperty(area, ProductModelProp, "LE2123");
      }
    case 22 =>  // NA
      if device == "OnePlus9" {
        OverrideProperty(area, ProductModelProp, "LE2115");
      } else if device == "OnePlus9Pro" {
        OverrideProperty(area, ProductModelProp, "LE2125");
      }
    case _ =>
      outcome := RfVersionLogged(rf);
  }
}
