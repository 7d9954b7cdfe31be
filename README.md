# VM metadata marshaller (vdsm `lib/vdsm/virt/metadata.py`)

A Dafny model of how vdsm stores per-VM key/value data in the libvirt domain
metadata:

- **Codec** (`_keyvalue_to_elem`, `_elem_to_keyvalue`): one Python value turns into
  one element and back. A `type` attribute records bool, int or float; strings get
  none. Any other type is rejected with `UnsupportedType`.
- **Metadata** (`load`, `dump`, `find`, `findall`, `_add_ns`, `_strip_ns`): a flat
  group of key/value pairs becomes an element with one child per key, and back.
  Tags can carry a `{uri}` namespace prefix.
- **Devices** (`_match_args`, the module-level `_find_device`): a device is picked
  by a subset match on its attributes. The outcome is none, exactly one, or
  `MissingDevice`.
- **Descriptors** (class `Descriptor`): an in-memory store of the VM's values, its
  custom properties and a list of devices, each with attributes and a mutable
  data dict.
  - `_load` splits a metadata element into those parts; `_build_xml` puts them
    back together.
  - The `device()` and `values()` context managers are each modelled as an
    "enter" method, which hands out a copy, and an "exit" method, which replaces
    the stored dict with that copy.
  - A per-device dict is a `DeviceData` object. So the reference that `_add_device`
    returns, and that `device()` later clears and refills, is the same object that
    sits in the device list.

## How things are represented

- An ElementTree element is the value `Xml.Elem(tag, attrs, text, children)`.
- `text` is an `Option`, because ElementTree text may be `None`.
- A namespaced tag is written `{uri}tag`, as ElementTree writes it.
- A Python value handed to the marshaller is `Codec.PyValue`:
  - strings, integers (unbounded, like Python's `int`) and bools;
  - floats, kept as their text (accepting the literals `float()` accepts);
  - `None`;
  - any other object, named by its type.
- The exceptions the code raises are `Codec.Error`.
- An operation that may raise returns a `Result`, or on the class an
  `Option<Error>`.
- `Descriptor.Load` leaves the state exactly as the Python leaves it at the point
  of the exception. In particular, `_custom` is already assigned when loading a
  device fails.
- `dump` iterates over a dict, and no order of dict iteration is assumed. Each
  method that dumps returns, as ghost outputs, the key order it used (`ks`), or
  one order per dumped group. Its result is stated as the deterministic function
  of that order: `Metadata.GroupElem` or `Descriptors.BuildElem`. The round-trip
  lemmas hold for every order.
- `_strip_ns` is `str.replace(prefix, '')`. It removes every occurrence of the
  prefix, not only a leading one (`Text.RemoveAll`).
- When a namespace is given without a URI, the prefix is `{None}`, as Python's
  `'{%s}' % None` gives.
- `int(text)` accepts surrounding whitespace, an optional sign and decimal digits
  (`Text.ParseInt`). `str(i)` is `Text.IntToString`. `float(text)` accepts
  surrounding whitespace, an optional sign, then `inf`, `infinity` or `nan` in any
  case, or decimal digits with an optional fraction and exponent
  (`Text.IsFloatLiteral`); the text itself is kept, not its binary value.
- Strings follow Python 3: `str` and `int` are the only string and integer types.
- `conv.tobool` is not part of this model. It is taken to be
  `text == "True"`, which is all the round trip needs of it.
- `Descriptor._build_xml` calls the corrected dump, which takes the group as a map
  (see Findings).

A limit on the Descriptor round trip: the VM group is loaded with `load`, which
converts every child, the `device` elements included. So a written device (one
with non-empty data) whose attributes include `type="int"` or `type="float"` makes
`_load` fail after `_build_xml` built it: the device element has no text, and
`int(None)`/`float(None)` raise. `Descriptors.BuildLoadRoundTrip` therefore
requires `LoadableAttrs` of every device that `_build_xml` writes; a device with
empty data is not written, and its attributes do not matter.

## Model

| member | source | states |
|---|---|---|
| Text.RemoveAll | lib/vdsm/virt/metadata.py:195-199 | `str.replace(p, '')` never lengthens a string, and leaves a string without `p` unchanged |
| Text.RemoveAllPrefixed | lib/vdsm/virt/metadata.py:195-199 | removing every `p` from `p + t` gives back `t` when `t` does not contain `p` |
| Text.IntRoundTrip | lib/vdsm/virt/metadata.py:849 | `int(str(i)) == i` for every integer, negative ones included |
| Codec.KeyValueToElem | lib/vdsm/virt/metadata.py:856-869 | fails exactly on unsupported types, with `UnsupportedType(value)`; otherwise yields an element with the key as tag, `str(value)` as text and no children; it carries `type` exactly when the value is not a string, and `type` is `bool` for bools (never `int`), `int` for ints and `float` for floats |
| Codec.ElemToKeyValueCases | lib/vdsm/virt/metadata.py:841-853 | the key is the tag; an element without a known `type` loads as its raw text (or `None`); `type="bool"` loads via `conv.tobool`; it fails exactly when an int or float element has missing text or text that `int()` or `float()` rejects |
| Codec.FloatElemAccepts | lib/vdsm/virt/metadata.py:850-851 | a float element with the text `4.2` loads as that float |
| Codec.FloatElemRejects | lib/vdsm/virt/metadata.py:850-851 | a float element with the text `abc` raises `ValueError` |
| Codec.KeyValueRoundTrip | lib/vdsm/virt/metadata.py:841-869 | for a string, int or bool, converting the dumped element back gives the same key and value |
| Metadata.Prefix | lib/vdsm/virt/metadata.py:106-111 | there is a prefix exactly when a namespace is given, and it has the form `{...}` |
| Metadata.NsRoundTrip | lib/vdsm/virt/metadata.py:189-199 | `_strip_ns(_add_ns(t)) == t` when `t` does not contain the prefix; with no namespace both are the identity |
| Metadata.AddNsInjective | lib/vdsm/virt/metadata.py:189-193 | distinct keys get distinct tags |
| Metadata.WordIsNsFree | lib/vdsm/virt/metadata.py:189-199 | a key without `{` never contains the prefix |
| Metadata.FindAllMembers | lib/vdsm/virt/metadata.py:182-187 | `findall` yields exactly the direct children carrying the namespaced tag |
| Metadata.FindFirst | lib/vdsm/virt/metadata.py:176-180 | `find` returns something exactly when some child carries the namespaced tag, and then the first such child |
| Metadata.Load | lib/vdsm/virt/metadata.py:137-141 | the loop over the children computes the group: each child converted and keyed by its tag stripped of the namespace, later children overwriting earlier ones, or the first conversion error |
| Metadata.LoadChildrenOk | lib/vdsm/virt/metadata.py:137-141 | loading succeeds exactly when every child converts |
| Metadata.LoadChildrenKeys | lib/vdsm/virt/metadata.py:137-141 | a loaded group has exactly one key per distinct stripped child tag |
| Metadata.LoadChildrenConcat | lib/vdsm/virt/metadata.py:137-141 | loading two runs of children gives the union of their groups, the later run winning |
| Metadata.GroupChildrenShape | lib/vdsm/virt/metadata.py:171-174 | the dumped element has one child per key, in visiting order, each the element `_keyvalue_to_elem` builds for that key with the namespace added |
| Metadata.Dump | lib/vdsm/virt/metadata.py:171-174 | fails exactly when some value is unsupported, with the `UnsupportedType` of such a value; otherwise it visits every key exactly once and returns the namespaced group element with one typed child per key in that order |
| Metadata.LoadDumpRoundTrip | lib/vdsm/virt/metadata.py:113-174 | `load(dump(name, **kv)) == kv` for every key order, when the values are strings, ints or bools and no key contains the prefix |
| Metadata.BindDumpArgs | lib/vdsm/virt/metadata.py:143 | passing a group as `**kwargs` to `dump(self, name, **kwargs)` fails exactly when it holds the key `self` or `name` |
| Metadata.NameKeyIsRejected | lib/vdsm/virt/metadata.py:804 | the group `{"name": "vm0"}` has a dump that loads back to it, yet binding it as keyword arguments fails |
| Devices.MatchArgs | lib/vdsm/virt/metadata.py:834-838 | the loop returns true exactly when every requested attribute is present with an equal value |
| Devices.MatchIgnoresExtraAttrs | lib/vdsm/virt/metadata.py:389-390 | attributes that are not requested do not change the match, and requesting nothing matches every device |
| Devices.FilterSize | lib/vdsm/virt/metadata.py:816-820 | the comprehension keeps nothing exactly when nothing matches, more than one exactly when two positions match, and when it keeps one, that is the only match |
| Devices.FindUnique | lib/vdsm/virt/metadata.py:821-825 | `MissingDevice` exactly when two entries match, `None` exactly when none does, otherwise the unique match |
| Devices.FindDevice | lib/vdsm/virt/metadata.py:375-418 | among the `device` children (namespaced by the URI if given): `MissingDevice` exactly when two match all the attributes, `None` exactly when none does, otherwise a matching device child |
| Descriptors.View | lib/vdsm/virt/metadata.py:627 | the value view of the device list has one entry per device, with its attributes and the current contents of its dict |
| Descriptors.LoadDevicesShape | lib/vdsm/virt/metadata.py:794-797 | the device list loads exactly when every device element loads, and then has one entry per element, in document order, with its attributes and loaded group |
| Descriptors.LoadDeviceList | lib/vdsm/virt/metadata.py:794-797 | the loop builds that device list with a fresh, distinct dict per device, or stops with the error of the first device that fails |
| Descriptors.DumpDevice | lib/vdsm/virt/metadata.py:806-809 | a device with empty data yields nothing; otherwise the dump of its data under the `device` tag, carrying the device's attributes; `UnsupportedType` exactly when a value is unsupported |
| Descriptors.DumpDevices | lib/vdsm/virt/metadata.py:805-809 | one `device` element per device with non-empty data, in order, each the dump of that device; `UnsupportedType` exactly when some device holds an unsupported value |
| Descriptors.NonEmptyMembers | lib/vdsm/virt/metadata.py:806 | every device `_build_xml` writes is one of the descriptor's devices and has non-empty data |
| Descriptors.BuildLoadRoundTrip | lib/vdsm/virt/metadata.py:786-812 | loading what `_build_xml` built gives back the VM's values once `custom` and `device` are removed, the custom properties, and the devices with non-empty data, in order; attributes are constrained only on the devices that are written |
| Descriptors.Descriptor.constructor | lib/vdsm/virt/metadata.py:622-627 | a new descriptor has the given name and namespace, and no values, custom properties or devices |
| Descriptors.Descriptor.FindDevice | lib/vdsm/virt/metadata.py:815-825 | `MissingDevice` exactly when two devices match `kwargs`, `None` exactly when none does, otherwise the data dict of the unique match |
| Descriptors.Descriptor.AddDevice | lib/vdsm/virt/metadata.py:827-831 | appends exactly one device with the given attributes and a fresh empty dict, returns that same dict, and changes nothing else |
| Descriptors.Descriptor.DeviceEnter | lib/vdsm/virt/metadata.py:741-745 | `MissingDevice` with nothing changed when the match is ambiguous; the matching device's dict and a copy of its data when one matches; otherwise one new entry `(kwargs, {})` appended and an empty copy; values and custom properties never change |
| Descriptors.Descriptor.DeviceExit | lib/vdsm/virt/metadata.py:746-747 | the device's data becomes exactly the yielded map (no merge), and no other device changes |
| Descriptors.Descriptor.ValuesEnter | lib/vdsm/virt/metadata.py:759-760 | yields a copy of the VM's values |
| Descriptors.Descriptor.ValuesExit | lib/vdsm/virt/metadata.py:761-762 | the VM's values become exactly the yielded map (no merge), and nothing else changes |
| Descriptors.Descriptor.Custom | lib/vdsm/virt/metadata.py:773 | the custom properties, returned by value, so no change to the result reaches the descriptor |
| Descriptors.Descriptor.Load | lib/vdsm/virt/metadata.py:786-800 | the values are the loaded group without the `custom` and `device` keys; the custom properties are the loaded `custom` child, or `{}` without one; the devices are the loaded `device` children in document order, each with a fresh dict; on an exception, the fields assigned before it keep their new values and the rest keep their old ones |
| Descriptors.Descriptor.BuildXml | lib/vdsm/virt/metadata.py:802-812 | `UnsupportedType` exactly when some value, custom property or non-empty device holds an unsupported value; otherwise the VM group, then one `device` element per device with non-empty data, then a `custom` element only when there are custom properties |

## Left out

- The STOMP dispatcher, `dummybr`, the `faqemu` hook and the `/proc` test helper are not part of this model. They are I/O or have no source to model against.
- libvirt access is not modelled: `domain`, `_metadata_xml`, the module-level `device` context manager, and `Descriptor.load`/`dump`. They read and write a live domain.
- XML text is not modelled: `from_xml`, `_parse_xml`, `to_xml`, `vmxml.parse_xml`/`format_xml`. Neither are `device_from_xml_tree` and `create`. Elements are abstract values, and `BuildXml` stops at the element that `format_xml` would print.
- `ET.register_namespace` is left out. The global prefix registry affects how elements are printed. It also raises `ValueError` for a prefix of the form `ns` followed by digits, so `Metadata("ns0", uri)` fails in its constructor (line 110); `Metadata.Prefix` accepts every namespace.
- Devices.FindDevice: the XPath string that the module `_find_device` builds is replaced by the same subset match. XPath quoting of attribute values containing `"` is not modelled.
- Floats are left out of the round trip. Their text is kept as written, and `float(text)` is not parsed, so `Codec.Exact` excludes them.
- Codec.ToBool: `conv.tobool` is assumed to be `text == "True"`. Its other accepted spellings are not modelled.
- Text.ParseInt: underscores between digits and non-ASCII decimal digits, which Python's `int()` also accepts, are not modelled. The whitespace stripped around the digits is the full set `str.isspace` accepts.
- Text.IsFloatLiteral: underscores between digits and non-ASCII decimal digits, which Python's `float()` also accepts, are not modelled.
- Metadata.Dump: the order of dict iteration is not fixed. It is a ghost output, and every result is stated for that order.
- Descriptors.Descriptor.DeviceEnter: an exception raised inside a `with` block skips the exit step. The model leaves it to the caller whether to call `DeviceExit`/`ValuesExit`.
- Codec.KeyValueToElem: the model follows Python 3. Under Python 2, which this code also supports through `six`, two things differ. A `long` fails `isinstance(value, int)` (line 860), so it raises `UnsupportedType`, while the model accepts every integer. `str(value)` (line 868) raises `UnicodeEncodeError` on a non-ASCII `unicode` value, while the model accepts every string.
- Descriptors.Descriptor.BuildXml: it dumps through the corrected `Metadata.Dump` (see Findings). As written, `_build_xml` passes each map as keyword arguments: `dump(self._name, **self._values)` at line 804, `dump(_DEVICE, **data)` at line 807 and `dump(_CUSTOM, **self._custom)` at line 811. Each of those raises `TypeError` when its map holds the key `name` or `self`, and the model does not raise there.

## Findings

| source | as written | input that shows it | evidently intended | confidence | as-written member | corrected member |
|---|---|---|---|---|---|---|
| lib/vdsm/virt/metadata.py:143, 804, 807, 811 | `_build_xml` calls `dump(self._name, **self._values)`, and likewise `dump` with `**data` and `**self._custom`. `dump` is declared `dump(self, name, **kwargs)`, so a key `name` or `self` in the values binds a named parameter twice, and Python raises `TypeError` | VM values `{"name": "vm0"}` | every group of supported values can be dumped, whatever its keys | not executed | Metadata.NameKeyIsRejected (with Metadata.BindDumpArgs) | Metadata.Dump, with Metadata.LoadDumpRoundTrip |
