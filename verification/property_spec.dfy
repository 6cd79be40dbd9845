/**
 * The property store as a value (a map from property name to value) and
 * the effect, on that value, of the override primitive and of writing a
 * product identity under every partition namespace.
 */
module PropertySpec {
  import opened PropKeys

  type Store = map<string, string>

  /** The (model, name, marketname) triple a SKU reports. */
  datatype Identity = Identity(model: string, name: string, marketname: string)

  /**
   * `GetProperty(key, default)`: the stored value, or `default` when the
   * key is absent or holds the empty string.
   */
  function GetProperty(m: Store, key: string, default: string): (r: string)
    ensures key in m && m[key] != "" ==> r == m[key]
    ensures key !in m || m[key] == "" ==> r == default
  {
    if key in m && m[key] != "" then m[key] else default
  }

  /**
   * The store after the override primitive: `name` holds `value` whether or
   * not it was present, every other key keeps its presence and its value,
   * and a key is added only when it was absent.
   */
  function Override(m: Store, name: string, value: string): (r: Store)
    ensures name in r && r[name] == value
    ensures forall k :: k != name ==> (k in r <==> k in m)
    ensures forall k :: k != name && k in m ==> r[k] == m[k]
    ensures r.Keys == m.Keys + {name}
    ensures name in m ==> |r| == |m|
    ensures name !in m ==> |r| == |m| + 1
  {
    m[name := value]
  }

  /** The three keys of one namespace that an identity write touches. */
  function IdentityKeys(source: string): set<string> {
    {ProductKey(source, "model"), ProductKey(source, "name"), ProductKey(source, "marketname")}
  }

  /** The store after writing model, name and marketname under one namespace. */
  function WriteIdentity(m: Store, source: string, id: Identity): Store {
    var m1 := Override(m, ProductKey(source, "model"), id.model);
    var m2 := Override(m1, ProductKey(source, "name"), id.name);
    Override(m2, ProductKey(source, "marketname"), id.marketname)
  }

  /** The store after writing the identity under each namespace of `parts`, in order. */
  function WriteAll(m: Store, parts: seq<string>, id: Identity): Store
    decreases |parts|
  {
    if parts == [] then m
    else WriteIdentity(WriteAll(m, parts[..|parts| - 1], id), parts[|parts| - 1], id)
  }

  /** Writing under one more namespace of a list is one more identity write. */
  lemma WriteAllStep(m: Store, parts: seq<string>, i: nat, id: Identity)
    requires i < |parts|
    ensures WriteAll(m, parts[..i + 1], id) == WriteIdentity(WriteAll(m, parts[..i], id), parts[i], id)
  {
    assert parts[..i + 1][..i] == parts[..i];
  }

  /** Every key that writing under the namespaces of `parts` touches. */
  function KeysOf(parts: seq<string>): set<string>
    decreases |parts|
  {
    if parts == [] then {} else KeysOf(parts[..|parts| - 1]) + IdentityKeys(parts[|parts| - 1])
  }

  /** The full override: the identity written under all seven partition namespaces. */
  function DeviceProps(m: Store, id: Identity): Store {
    WriteAll(m, Partitions, id)
  }

  /** The 21 keys the full override writes. */
  function DeviceKeys(): set<string> {
    KeysOf(Partitions)
  }

  /** `s` carries the identity `id` under the namespace `source`. */
  predicate HoldsIdentity(m: Store, source: string, id: Identity) {
    && ProductKey(source, "model") in m && m[ProductKey(source, "model")] == id.model
    && ProductKey(source, "name") in m && m[ProductKey(source, "name")] == id.name
    && ProductKey(source, "marketname") in m && m[ProductKey(source, "marketname")] == id.marketname
  }

  predicate AllNamespaces(parts: seq<string>) {
    forall i :: 0 <= i < |parts| ==> IsNamespace(parts[i])
  }

  /** The three identity keys of any two namespaces differ unless they name the same property. */
  lemma IdentityKeysApart(s1: string, s2: string)
    requires IsNamespace(s1) && IsNamespace(s2)
    ensures ProductKey(s1, "model") != ProductKey(s2, "name")
    ensures ProductKey(s1, "model") != ProductKey(s2, "marketname")
    ensures ProductKey(s1, "name") != ProductKey(s2, "model")
    ensures ProductKey(s1, "name") != ProductKey(s2, "marketname")
    ensures ProductKey(s1, "marketname") != ProductKey(s2, "model")
    ensures ProductKey(s1, "marketname") != ProductKey(s2, "name")
  {
    IdentityNamesDotless();
    KeysApart(s1, "model", s2, "name");
    KeysApart(s1, "model", s2, "marketname");
    KeysApart(s1, "name", s2, "model");
    KeysApart(s1, "name", s2, "marketname");
    KeysApart(s1, "marketname", s2, "model");
    KeysApart(s1, "marketname", s2, "name");
  }

  /** Keys of two different namespaces never coincide. */
  lemma NamespacesApart(s1: string, s2: string)
    requires IsNamespace(s1) && IsNamespace(s2) && s1 != s2
    ensures IdentityKeys(s1) !! IdentityKeys(s2)
  {
    IdentityNamesDotless();
    IdentityKeysApart(s1, s2);
    KeysApart(s1, "model", s2, "model");
    KeysApart(s1, "name", s2, "name");
    KeysApart(s1, "marketname", s2, "marketname");
  }

  /** Writing an identity under any namespace keeps the same identity under every other one. */
  lemma WriteIdentityKeeps(m: Store, source: string, other: string, id: Identity)
    requires IsNamespace(source) && IsNamespace(other)
    requires HoldsIdentity(m, other, id)
    ensures HoldsIdentity(WriteIdentity(m, source, id), other, id)
  {
    IdentityKeysApart(source, other);
    IdentityKeysApart(other, source);
  }

  /** After writing under `parts`, every one of those namespaces carries the identity. */
  lemma WriteAllHolds(m: Store, parts: seq<string>, id: Identity)
    requires AllNamespaces(parts)
    ensures forall i :: 0 <= i < |parts| ==> HoldsIdentity(WriteAll(m, parts, id), parts[i], id)
  {
    forall i | 0 <= i < |parts| ensures HoldsIdentity(WriteAll(m, parts, id), parts[i], id) {
      WriteAllHoldsAt(m, parts, id, i);
    }
  }

  /** After writing under `parts`, its `i`-th namespace carries the identity. */
  lemma {:induction false} WriteAllHoldsAt(m: Store, parts: seq<string>, id: Identity, i: nat)
    requires AllNamespaces(parts) && i < |parts|
    ensures HoldsIdentity(WriteAll(m, parts, id), parts[i], id)
  {
    var init, last := parts[..|parts| - 1], parts[|parts| - 1];
    var before := WriteAll(m, init, id);
    if i == |parts| - 1 {
      WriteIdentityHolds(before, last, id);
    } else {
      assert AllNamespaces(init) by {
        forall j | 0 <= j < |init| ensures init[j] == parts[j] { }
      }
      WriteAllHoldsAt(m, init, id, i);
      assert init[i] == parts[i];
      WriteIdentityKeeps(before, last, parts[i], id);
    }
  }

  /** One identity write makes its namespace report the identity. */
  lemma WriteIdentityHolds(m: Store, source: string, id: Identity)
    requires IsNamespace(source)
    ensures HoldsIdentity(WriteIdentity(m, source, id), source, id)
  {
    IdentityKeysApart(source, source);
  }

  /** Two stores that carry the same identity under a namespace agree on its three keys. */
  lemma SameIdentityAgrees(m1: Store, m2: Store, source: string, id: Identity, k: string)
    requires HoldsIdentity(m1, source, id) && HoldsIdentity(m2, source, id)
    requires k in IdentityKeys(source)
    ensures k in m1 && k in m2 && m1[k] == m2[k]
  {
  }

  /** Writing the same identity under the same namespaces a second time changes nothing. */
  lemma WriteAllIdempotent(m: Store, parts: seq<string>, id: Identity)
    requires AllNamespaces(parts)
    ensures WriteAll(WriteAll(m, parts, id), parts, id) == WriteAll(m, parts, id)
  {
    var once := WriteAll(m, parts, id);
    var twice := WriteAll(once, parts, id);
    WriteAllKeys(m, parts, id);
    WriteAllKeys(once, parts, id);
    assert twice.Keys == once.Keys;
    forall k | k in once ensures twice[k] == once[k] {
      if k in KeysOf(parts) {
        KeysOfMember(parts, k);
        var i :| 0 <= i < |parts| && k in IdentityKeys(parts[i]);
        WriteAllHoldsAt(m, parts, id, i);
        WriteAllHoldsAt(once, parts, id, i);
        SameIdentityAgrees(once, twice, parts[i], id, k);
      } else {
        WriteAllUnchanged(once, parts, id);
      }
    }
  }

  /** Every key written under `parts` is one of the three keys of one of its namespaces. */
  lemma {:induction false} KeysOfMember(parts: seq<string>, k: string)
    requires k in KeysOf(parts)
    ensures exists i :: 0 <= i < |parts| && k in IdentityKeys(parts[i])
  {
    var init, last := parts[..|parts| - 1], parts[|parts| - 1];
    if k in IdentityKeys(last) {
      assert parts[|parts| - 1] == last;
    } else {
      KeysOfMember(init, k);
      var i :| 0 <= i < |init| && k in IdentityKeys(init[i]);
      assert init[i] == parts[i];
    }
  }

  /** The keys of the `i`-th namespace are among the keys written under `parts`. */
  lemma {:induction false} KeysOfContains(parts: seq<string>, i: nat)
    requires i < |parts|
    ensures IdentityKeys(parts[i]) <= KeysOf(parts)
  {
    if i < |parts| - 1 {
      KeysOfContains(parts[..|parts| - 1], i);
    }
  }

  /** Applying the full override to its own result changes nothing. */
  lemma DevicePropsIdempotent(m: Store, id: Identity)
    ensures DeviceProps(DeviceProps(m, id), id) == DeviceProps(m, id)
  {
    PartitionsWellFormed();
    WriteAllIdempotent(m, Partitions, id);
  }

  /**
   * Writing under `parts` adds exactly the keys of `parts` and changes no
   * value outside them.
   */
  lemma WriteAllFrame(m: Store, parts: seq<string>, id: Identity)
    ensures WriteAll(m, parts, id).Keys == m.Keys + KeysOf(parts)
    ensures forall k :: k in m && k !in KeysOf(parts) ==> WriteAll(m, parts, id)[k] == m[k]
  {
    WriteAllKeys(m, parts, id);
    WriteAllUnchanged(m, parts, id);
    assert WriteAll(m, parts, id).Keys == m.Keys + KeysOf(parts);
  }

  /** Writing under `parts` adds exactly the keys of `parts`. */
  lemma {:induction false} WriteAllKeys(m: Store, parts: seq<string>, id: Identity)
    ensures forall k :: k in WriteAll(m, parts, id) <==> k in m || k in KeysOf(parts)
  {
    if parts != [] {
      var init, last := parts[..|parts| - 1], parts[|parts| - 1];
      WriteAllKeys(m, init, id);
    }
  }

  /** Writing under `parts` changes no value outside the keys of `parts`. */
  lemma {:induction false} WriteAllUnchanged(m: Store, parts: seq<string>, id: Identity)
    ensures forall k :: k in m && k !in KeysOf(parts) ==> k in WriteAll(m, parts, id) && WriteAll(m, parts, id)[k] == m[k]
  {
    if parts != [] {
      var init, last := parts[..|parts| - 1], parts[|parts| - 1];
      var before := WriteAll(m, init, id);
      WriteAllUnchanged(m, init, id);
      WriteIdentityFrame(before, last, id);
      forall k | k in m && k !in KeysOf(parts)
        ensures k in WriteAll(m, parts, id) && WriteAll(m, parts, id)[k] == m[k]
      {
        assert k !in KeysOf(init) && k !in IdentityKeys(last);
      }
    }
  }

  /** One identity write adds only the namespace's three keys and changes no other value. */
  lemma WriteIdentityFrame(m: Store, source: string, id: Identity)
    ensures WriteIdentity(m, source, id).Keys == m.Keys + IdentityKeys(source)
    ensures forall k :: k in m && k !in IdentityKeys(source) ==> WriteIdentity(m, source, id)[k] == m[k]
  {
  }

  /** No key of `s` is among the keys of namespaces other than `s`. */
  lemma {:induction false} KeysOfApart(parts: seq<string>, s: string)
    requires AllNamespaces(parts) && IsNamespace(s) && s !in parts
    ensures KeysOf(parts) !! IdentityKeys(s)
  {
    if parts != [] {
      var init, last := parts[..|parts| - 1], parts[|parts| - 1];
      assert AllNamespaces(init) && s !in init by {
        forall i | 0 <= i < |init| ensures init[i] == parts[i] { }
      }
      KeysOfApart(init, s);
      NamespacesApart(last, s);
    }
  }

  /** Distinct namespaces yield three distinct keys each. */
  lemma {:induction false} KeysOfCount(parts: seq<string>)
    requires AllNamespaces(parts)
    requires forall i, j :: 0 <= i < j < |parts| ==> parts[i] != parts[j]
    ensures |KeysOf(parts)| == 3 * |parts|
  {
    if parts != [] {
      var init, last := parts[..|parts| - 1], parts[|parts| - 1];
      assert last !in init by {
        forall i | 0 <= i < |init| ensures init[i] != last {
          assert init[i] == parts[i];
        }
      }
      KeysOfCount(init);
      KeysOfApart(init, last);
      IdentityKeysApart(last, last);
      assert |IdentityKeys(last)| == 3;
    }
  }

  /** Every key written under namespaces ends in one of the three identity names. */
  lemma {:induction false} KeysOfShape(parts: seq<string>)
    requires AllNamespaces(parts)
    ensures forall k :: k in KeysOf(parts) ==> SplitKey(k).1 in IdentityNames
  {
    if parts != [] {
      var init, last := parts[..|parts| - 1], parts[|parts| - 1];
      assert AllNamespaces(init) by {
        forall i | 0 <= i < |init| ensures init[i] == parts[i] { }
      }
      KeysOfShape(init);
      IdentityNamesDotless();
      ProductKeySplit(last, "model");
      ProductKeySplit(last, "name");
      ProductKeySplit(last, "marketname");
    }
  }

  /**
   * After the full override each of the seven namespaces reports the identity,
   * no other key changes, and exactly the 21 device keys may be added.
   */
  lemma DevicePropsSpec(m: Store, id: Identity)
    ensures forall i :: 0 <= i < |Partitions| ==> HoldsIdentity(DeviceProps(m, id), Partitions[i], id)
    ensures DeviceProps(m, id).Keys == m.Keys + DeviceKeys()
    ensures forall k :: k in m && k !in DeviceKeys() ==> DeviceProps(m, id)[k] == m[k]
    ensures |DeviceKeys()| == 21
  {
    PartitionsWellFormed();
    WriteAllHolds(m, Partitions, id);
    WriteAllFrame(m, Partitions, id);
    KeysOfCount(Partitions);
  }

  /** Neither property the mapper reads is one of the device keys. */
  lemma InputsNotDeviceKeys()
    ensures DeviceProp !in DeviceKeys()
    ensures RfVersionProp !in DeviceKeys()
  {
    DeviceKeyShape();
    RfVersionKeyShape();
    PartitionsWellFormed();
    KeysOfShape(Partitions);
  }
}
