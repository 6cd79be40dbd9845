/**
 * Names of the build properties that the mapper reads and writes, and the
 * fact that the names it generates never collide with one another or with
 * the two properties it reads.
 */
module PropKeys {

  /** The device codename the mapper reads. */
  const DeviceProp: string := "ro.product.product.device"
  /** The raw RF-version code the bootloader exposes. */
  const RfVersionProp: string := "ro.boot.rf_version"
  /** The one property the model-only overrides write. */
  const ProductModelProp: string := "ro.product.product.model"

  /** The three properties that make up a product identity. */
  const IdentityNames: set<string> := {"model", "name", "marketname"}

  /** The partition namespaces that mirror the product identity, in write order. */
  const Partitions: seq<string> :=
    ["", "bootimage.", "odm.", "product.", "system.", "system_ext.", "vendor."]

  /**
   * A namespace is a key fragment that is either empty or ends in a dot, so
   * that a property name can follow it directly.
   */
  predicate IsNamespace(s: string) {
    s == [] || s[|s| - 1] == '.'
  }

  predicate Dotless(s: string) {
    forall i :: 0 <= i < |s| ==> s[i] != '.'
  }

  /**
   * The key `set_ro_build_prop` writes: `ro.product.<source><prop>` for the
   * product form and `ro.<source>build.<prop>` otherwise.
   */
  function BuildPropName(source: string, prop: string, product: bool): string {
    if product then "ro.product." + source + prop else "ro." + source + "build." + prop
  }

  /** The product form of `BuildPropName`, the only form this file uses. */
  function ProductKey(source: string, prop: string): string {
    BuildPropName(source, prop, true)
  }

  /** Index of the last dot in `s`, or -1 when there is none. */
  function LastDot(s: string): (r: int)
    ensures -1 <= r < |s|
    ensures r >= 0 ==> s[r] == '.'
  {
    if s == [] then -1
    else if s[|s| - 1] == '.' then |s| - 1
    else LastDot(s[..|s| - 1])
  }

  /** In a namespace followed by a dotless name, the last dot closes the namespace. */
  lemma {:induction false} LastDotOfKey(ns: string, name: string)
    requires IsNamespace(ns) && Dotless(name)
    ensures LastDot(ns + name) == |ns| - 1
  {
    if name == [] {
      assert ns + name == ns;
    } else {
      var s := ns + name;
      assert s[..|s| - 1] == ns + name[..|name| - 1];
      LastDotOfKey(ns, name[..|name| - 1]);
    }
  }

  /**
   * Either form of build-property key starts with `ro.`, and for a namespace
   * `source` and a dotless `prop` it is a namespace followed by `prop`: the
   * last dot sits right before the property name.
   */
  lemma BuildPropNameShape(source: string, prop: string, product: bool)
    requires IsNamespace(source) && Dotless(prop)
    ensures var k := BuildPropName(source, prop, product);
      && |k| >= |prop| + 3 && k[..3] == "ro." && k[|k| - |prop|..] == prop
      && IsNamespace(k[..|k| - |prop|])
      && LastDot(k) == |k| - |prop| - 1
  {
    var k := BuildPropName(source, prop, product);
    var ns := k[..|k| - |prop|];
    assert k == ns + prop;
    LastDotOfKey(ns, prop);
  }

  /**
   * The inverse of `ProductKey`: the namespace between `ro.product.` and the
   * last dot, and the name after that dot.
   */
  function SplitKey(k: string): (string, string) {
    var d := LastDot(k);
    if 11 <= d + 1 then (k[11..d + 1], k[d + 1..]) else ("", k)
  }

  /**
   * A product key built from a namespace and a dotless name splits back into
   * that namespace and that name; so two such keys are equal only when both
   * their parts are.
   */
  lemma ProductKeySplit(source: string, prop: string)
    requires IsNamespace(source) && Dotless(prop)
    ensures SplitKey(ProductKey(source, prop)) == (source, prop)
  {
    var ns := "ro.product." + source;
    assert IsNamespace(ns);
    assert ProductKey(source, prop) == ns + prop;
    LastDotOfKey(ns, prop);
    assert (ns + prop)[11..|ns|] == source;
    assert (ns + prop)[|ns|..] == prop;
  }

  /** Product keys built from different (namespace, name) pairs are different. */
  lemma KeysApart(s1: string, p1: string, s2: string, p2: string)
    requires IsNamespace(s1) && Dotless(p1)
    requires IsNamespace(s2) && Dotless(p2)
    requires s1 != s2 || p1 != p2
    ensures ProductKey(s1, p1) != ProductKey(s2, p2)
  {
    ProductKeySplit(s1, p1);
    ProductKeySplit(s2, p2);
  }

  /** Every partition prefix is a namespace, and no two are the same. */
  lemma PartitionsWellFormed()
    ensures forall i :: 0 <= i < |Partitions| ==> IsNamespace(Partitions[i])
    ensures forall i, j :: 0 <= i < j < |Partitions| ==> Partitions[i] != Partitions[j]
  {
    assert "system."[0] != "vendor."[0];
  }

  lemma IdentityNamesDotless()
    ensures Dotless("model") && Dotless("name") && Dotless("marketname") 
  {
  }

  /** The codename property is a product key whose name is not an identity name. */
  lemma DeviceKeyShape()
    ensures SplitKey(DeviceProp).1 !in IdentityNames
  {
    assert DeviceProp == ProductKey("product.", "device");
    ProductKeySplit("product.", "device");
  }

  /**
   * The RF-version property is no product key at all, and its split keeps the
   * whole key as the name, which is not an identity name.
   */
  lemma RfVersionKeyShape()
    ensures forall source, prop :: ProductKey(source, prop) != RfVersionProp
    ensures SplitKey(RfVersionProp).1 !in IdentityNames
  {
    forall source, prop
      ensures ProductKey(source, prop) != RfVersionProp
    {
      assert ProductKey(source, prop)[3] == 'p';
    }
    assert RfVersionProp == "ro.boot." + "rf_version";
    LastDotOfKey("ro.boot.", "rf_version");
  }

  /** The model-only override writes the `model` key of the `product.` namespace. */
  lemma ModelKeyShape()
    ensures ProductModelProp == ProductKey("product.", "model")
  {
  }
}
