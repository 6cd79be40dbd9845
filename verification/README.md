# Vendor property override for OPlus SM8350 devices, in Dafny

This project models the vendor init hook `init/init_oplus.cpp`. Boot-time
init runs it once while it loads vendor properties. The hook reads the device
codename (`ro.product.product.device`) and the RF-version code that the
bootloader exposes (`ro.boot.rf_version`). From these two values it picks the
identity that the device's regional SKU must report. It then writes that
identity into the read-only build properties. The normal property service
refuses such writes, so the hook goes around it.

The model has six modules:

- `Wrappers` (`wrappers.dfy`): an `Option` type.
- `IntParse` (`int_parse.dfy`): `std::stoi` on the RF-version string. The model
  skips leading white space, accepts one sign, reads the longest run of decimal
  digits and ignores what follows. The parse fails when no digit follows the
  white space and the optional sign, or when the value does not fit a 32-bit
  `int`. A rendering function `Decimal` is
  the inverse used in the round-trip lemmas.
- `PropKeys` (`prop_keys.dfy`): the property names.
  - `BuildPropName` is the key builder of `set_ro_build_prop`.
  - `Partitions` holds the seven namespace prefixes.
  - `SplitKey` is the inverse of the product key form. Through it the model
    proves that the 21 generated keys are pairwise distinct, and that they
    differ from the two properties the hook reads.
- `PropertySpec` (`property_spec.dfy`): the store as a value (`map<string, string>`).
  - `GetProperty`: a read with a default.
  - `Override`: find-or-create.
  - `DeviceProps`: the full seven-namespace override, defined as a fold of
    `WriteIdentity` over the prefixes. Lemmas give its values, its frame, its
    21 keys and its idempotence.
- `RfDispatch` (`rf_dispatch.dfy`): the decision table.
  - `Dispatch` is the switch on the RF-version code. `ModelTable` states the
    same rows as data.
  - `Load` describes one whole run: the new store and the outcome.
  - The lemmas cover each row of the table, the frame and idempotence.
- `InitOplus` (`init_oplus.dfy`): the code itself, written as methods.
  - The class `PropertyArea` holds the store in a `map` field. Its methods
    `Find`, `Update` and `Add` stand for the three platform calls.
  - `OverrideProperty`, `SetRoBuildProp`, `SetDeviceProps` (a loop over the
    seven prefixes, with its invariant) and `VendorLoadProperties` change the
    area in place.
  - Each method is proved to leave exactly the store that its specification
    function describes.

The C++ functions work on the global property area. Here they take the area
as a parameter instead. The error that `LOG(ERROR)` writes for an unknown code
becomes the outcome `RfVersionLogged(code)`, which `VendorLoadProperties`
returns.

Two points where this model follows the code rather than a reading of its
intent:

- Parse failure. A malformed RF-version value, such as `"abc"`, does not fall
  back to 0. The default `"0"` applies only when the property is unset or
  empty. For a
  malformed value `std::stoi` throws, and nothing has been written by then. The
  model ends such a run with the outcome `RfVersionUnparsable` and leaves the
  store unchanged.
- Prefix parse. `std::stoi` accepts a valid prefix, so `"12abc"` reads as 12.
  The model does the same.

`android::base::GetProperty` is not part of this model. The model takes that
function's documented behaviour: it returns the default when the property is
absent, and also when the property is empty.

## Model

| member | source | states |
|---|---|---|
| `IntParse.Stoi` | init/init_oplus.cpp:62 | A successful parse yields a value in the 32-bit `int` range and needs a digit in the input; when it fails is stated by `StoiNoDigits`, `StoiOverflow` and `StoiUnderflow` |
| `IntParse.StoiDecimal` | init/init_oplus.cpp:62 | A decimal number up to `INT_MAX`, followed by anything that does not start with a digit, parses to that number (round trip with `Decimal`) |
| `IntParse.StoiNegated` | init/init_oplus.cpp:62 | A minus sign before a decimal number down to `INT_MIN`, followed by anything that does not start with a digit, gives the negated value |
| `IntParse.StoiPlus` | init/init_oplus.cpp:62 | A plus sign before a decimal number up to `INT_MAX` gives that number |
| `IntParse.StoiOverflow` | init/init_oplus.cpp:62 | A decimal number above `INT_MAX`, with or without a plus sign, fails to parse (`std::stoi` throws `out_of_range`) |
| `IntParse.StoiUnderflow` | init/init_oplus.cpp:62 | A minus sign before a decimal number above 2^31 fails to parse |
| `IntParse.StoiNoDigits` | init/init_oplus.cpp:62 | Without a digit right after the optional sign the parse fails (`std::stoi` throws `invalid_argument`), as for "abc", "-" and "- 5" |
| `IntParse.StoiParts` | init/init_oplus.cpp:62 | For a string read as sign, digit run and remainder: no digits fail, otherwise the signed value is returned exactly when it fits an `int` |
| `IntParse.StoiSkipsSpace` | init/init_oplus.cpp:62 | Leading white space never changes the parsed result |
| `IntParse.LeadingSpaces` | init/init_oplus.cpp:62 | The skipped prefix is the longest run of white space at the start |
| `IntParse.DigitRun` | init/init_oplus.cpp:62 | The number read is the longest run of digits after the sign; what follows is ignored |
| `IntParse.DecimalValue` | init/init_oplus.cpp:62 | The digits of a decimal rendering read back to the number rendered |
| `PropKeys.BuildPropNameShape` | init/init_oplus.cpp:35-38 | For a namespace `source` and a dotless `prop`, both key forms start with `ro.`, end with `prop`, put a namespace before it, and have their last dot just before `prop`: the property name is the final segment |
| `PropKeys.BuildPropName` | init/init_oplus.cpp:35-38 | The key builder of `set_ro_build_prop`; its form is stated by `BuildPropNameShape`, and the product form is inverted by `SplitKey` (`ProductKeySplit`) |
| `PropKeys.ProductKeySplit` | init/init_oplus.cpp:36 | `SplitKey` recovers (namespace, name) from a product key, so two product keys are equal only when built from the same namespace and the same name |
| `PropKeys.PartitionsWellFormed` | init/init_oplus.cpp:45-46 | Each of the seven partition prefixes is empty or ends in a dot, and no two are equal |
| `PropKeys.KeysApart` | init/init_oplus.cpp:36 | Product keys built from different (namespace, name) pairs are different keys |
| `PropKeys.DeviceKeyShape` | init/init_oplus.cpp:61 | The name part that `SplitKey` takes from `ro.product.product.device` is not model, name or marketname |
| `PropKeys.RfVersionKeyShape` | init/init_oplus.cpp:62 | `ro.boot.rf_version` equals no product key of any namespace and name, and the name part `SplitKey` takes from it (the whole key, as it is no product key) is not model, name or marketname |
| `PropKeys.ModelKeyShape` | init/init_oplus.cpp:72 | The model-only key is the product key of namespace `product.` and name `model` |
| `PropertySpec.GetProperty` | init/init_oplus.cpp:61-62 | The read returns the stored value when it is present and non-empty, and the default otherwise |
| `PropertySpec.Override` | init/init_oplus.cpp:20-29 | `name` holds `value` afterwards, whether it was present or not; every other key keeps its presence and its value; a key is added only when it was absent |
| `PropertySpec.WriteIdentity` | init/init_oplus.cpp:49-51 | One loop iteration: three overrides under one namespace; characterised by `WriteIdentityHolds`, `WriteIdentityKeeps` and `WriteIdentityFrame` |
| `PropertySpec.WriteIdentityFrame` | init/init_oplus.cpp:49-51 | One iteration's three writes add only that namespace's three keys and change no other value |
| `PropertySpec.WriteIdentityHolds` | init/init_oplus.cpp:49-51 | After one iteration its namespace reports the full identity, although the three writes go to three keys in turn |
| `PropertySpec.WriteIdentityKeeps` | init/init_oplus.cpp:49-51 | One iteration never disturbs the identity already written under another namespace |
| `PropertySpec.WriteAll` | init/init_oplus.cpp:43-53 | The loop as a fold over the namespaces in order; characterised by `WriteAllHoldsAt`, `WriteAllKeys`, `WriteAllUnchanged` and `WriteAllIdempotent` |
| `PropertySpec.WriteAllHolds` | init/init_oplus.cpp:48-52 | After the writes for a list of namespaces, every namespace in the list reports the full identity (model, name, marketname) |
| `PropertySpec.WriteAllHoldsAt` | init/init_oplus.cpp:48-52 | Whatever the store held before, the `i`-th listed namespace reports the identity after the writes |
| `PropertySpec.WriteAllStep` | init/init_oplus.cpp:48-52 | Processing one more prefix of the list is one more iteration of the loop body |
| `PropertySpec.WriteAllFrame` | init/init_oplus.cpp:48-52 | The writes add exactly the keys of the listed namespaces and change no value outside them |
| `PropertySpec.WriteAllKeys` | init/init_oplus.cpp:48-52 | A key is present after the writes exactly when it was present before or is a key of a listed namespace |
| `PropertySpec.WriteAllUnchanged` | init/init_oplus.cpp:48-52 | A key outside the listed namespaces keeps its value |
| `PropertySpec.WriteAllIdempotent` | init/init_oplus.cpp:48-52 | Repeating the writes for the same namespaces and identity changes nothing |
| `PropertySpec.KeysOfCount` | init/init_oplus.cpp:45-52 | n distinct namespaces produce exactly 3n distinct keys |
| `PropertySpec.IdentityKeysApart` | init/init_oplus.cpp:49-51 | The model, name and marketname keys of any two namespaces differ when the names differ |
| `PropertySpec.NamespacesApart` | init/init_oplus.cpp:45-51 | Two different namespaces share no written key |
| `PropertySpec.KeysOfApart` | init/init_oplus.cpp:45-51 | A namespace outside the list shares no key with the keys written for the list |
| `PropertySpec.KeysOfShape` | init/init_oplus.cpp:49-51 | Every written key ends in model, name or marketname |
| `PropertySpec.KeysOfMember` | init/init_oplus.cpp:45-51 | Every written key is the model, name or marketname key of one of the listed namespaces |
| `PropertySpec.KeysOfContains` | init/init_oplus.cpp:45-51 | The three keys of each listed namespace are among the written keys |
| `PropertySpec.DeviceProps` | init/init_oplus.cpp:43-53 | `set_device_props` on a store; characterised by `DevicePropsSpec` and `DevicePropsIdempotent` |
| `PropertySpec.DevicePropsSpec` | init/init_oplus.cpp:43-53 | After the full override all seven namespaces report the identity, exactly the 21 device keys are added to the key set, and no other value changes |
| `PropertySpec.DevicePropsIdempotent` | init/init_oplus.cpp:43-53 | Running the full override twice gives the same store as running it once |
| `PropertySpec.InputsNotDeviceKeys` | init/init_oplus.cpp:45-62 | Neither `ro.product.product.device` nor `ro.boot.rf_version` is among the 21 device keys |
| `RfDispatch.Dispatch` | init/init_oplus.cpp:64-107 | An error is due exactly for codes outside {2, 11, 12, 13, 21, 22}; the full override exactly for code 2 on RMX3360, with the RMX3363 / RMX3360 / "Realme GT Master Edition" identity; a model override exactly for OnePlus9 or OnePlus9Pro under the other five codes; otherwise nothing |
| `RfDispatch.DispatchMatchesTable` | init/init_oplus.cpp:70-104 | The switch gives a model override exactly for the ten (code, codename) pairs of the data table, with the table's model (LE2110/LE2120, LE2117/LE2127, LE2111/LE2121, LE2113/LE2123, LE2115/LE2125) |
| `RfDispatch.Apply` | init/init_oplus.cpp:65-104 | The case bodies of the switch; characterised by `ApplyFrame` and `ApplyIdempotent` |
| `RfDispatch.RfVersion` | init/init_oplus.cpp:62 | The code read with default "0" and parsed; `LoadWithoutRfVersion`, `LoadOnePlus9China` and `LoadRfVersion99` give its value on concrete stores |
| `RfDispatch.Load` | init/init_oplus.cpp:60-108 | A run fails to parse exactly when `std::stoi` fails; it logs an error exactly for a parsed code outside the table, and logs that code; a run that parses nothing or logs an error changes no property |
| `RfDispatch.LoadFullOverride` | init/init_oplus.cpp:65-68 | Code 2 on RMX3360 gives exactly the full override with the Realme GT Master Edition identity: all seven namespaces report it, the 21 device keys are added, nothing else changes |
| `RfDispatch.LoadModelOverride` | init/init_oplus.cpp:70-104 | Codes 11, 12, 13, 21 and 22 on a OnePlus9 or OnePlus9Pro change only `ro.product.product.model`, which takes the table's entry |
| `RfDispatch.LoadOtherDevice` | init/init_oplus.cpp:64-104 | A known code with a codename outside its row changes nothing and logs nothing |
| `RfDispatch.LoadUnknownRfVersion` | init/init_oplus.cpp:105-106 | An unknown code logs that code and changes nothing |
| `RfDispatch.LoadWithoutRfVersion` | init/init_oplus.cpp:62-106 | With `ro.boot.rf_version` unset or empty the code read is 0: an error for code 0 is logged and nothing changes |
| `RfDispatch.LoadOnePlus9China` | init/init_oplus.cpp:70-72 | A OnePlus9 with the string "11" in `ro.boot.rf_version` gets model LE2110 and nothing else changes |
| `RfDispatch.LoadRfVersion99` | init/init_oplus.cpp:105-106 | The string "99" is logged as unexpected code 99 and nothing changes |
| `RfDispatch.ApplyFrame` | init/init_oplus.cpp:64-107 | No row of the table writes outside the 21 device keys |
| `RfDispatch.LoadFrame` | init/init_oplus.cpp:60-108 | A whole run adds no key outside the 21 device keys and changes no value outside them |
| `RfDispatch.ModelPropIsDeviceKey` | init/init_oplus.cpp:45-72 | The model-only key `ro.product.product.model` is itself one of the 21 device keys |
| `RfDispatch.LoadKeepsInputs` | init/init_oplus.cpp:61-62 | A run leaves the codename read and the RF-version code read exactly as they were |
| `RfDispatch.ApplyIdempotent` | init/init_oplus.cpp:64-107 | Applying any row's action to its own result changes nothing |
| `RfDispatch.LoadIdempotent` | init/init_oplus.cpp:60-108 | A second run from the result of the first gives the same store and the same outcome |
| `InitOplus.PropertyArea.Find` | init/init_oplus.cpp:23 | The lookup reports whether an entry with that name exists |
| `InitOplus.PropertyArea.Update` | init/init_oplus.cpp:25 | An existing entry takes the new value; nothing else changes |
| `InitOplus.PropertyArea.Add` | init/init_oplus.cpp:27 | An absent entry is created with the value; nothing else changes |
| `InitOplus.OverrideProperty` | init/init_oplus.cpp:20-29 | The area afterwards is `Override` of the area before: update when found, add otherwise |
| `InitOplus.SetRoBuildProp` | init/init_oplus.cpp:31-41 | The key `BuildPropName(source, prop, product)` is overridden with the value; `product` defaults to true |
| `InitOplus.SetDeviceProps` | init/init_oplus.cpp:43-53 | The loop leaves `DeviceProps` of the old area: each of the seven namespaces reports (model, name, marketname), exactly the 21 device keys are added, and no other value changes |
| `InitOplus.VendorLoadProperties` | init/init_oplus.cpp:60-108 | The new area and the returned outcome (loaded, error logged with the code, parse failure) are exactly those of `Load` on the old area |

## Left out

- The shared-memory property area behind `__system_property_find`, `__system_property_update` and `__system_property_add` is not modelled. That leaves out cross-process visibility, capacity exhaustion on add and value-length limits. `PropertyArea` keeps only the abstract contents.
- `PropertyArea.Update` and `PropertyArea.Add` require an existing and an absent entry respectively. `OverrideProperty` always calls them that way, and the platform's own behaviour outside that case is not part of this model.
- `LOG(ERROR)` output is left out. The returned outcome `RfVersionLogged(code)` records that the error is logged and which code it names.
- `std::stoi` exceptions are not modelled as exceptions. A throw becomes the outcome `RfVersionUnparsable`, with no write. Whatever init does after an uncaught exception is not part of this model.
- `Stoi` takes the C locale's white-space set and ASCII digits. Locale-dependent classification is left out.
- C-string details are left out: `strlen`, `c_str()` and NUL termination. A string with an embedded NUL would be cut short in C; the model uses `seq<char>` values throughout.
- The platform's read-only flag mechanics are left out. The override simply writes.
- Concurrent readers of the property area are left out; the hook itself writes sequentially.
