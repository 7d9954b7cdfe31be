/** The `Descriptor` class: an in-memory copy of a VM's metadata, split into the
    VM's own values, the read-only custom properties and a list of devices, each
    device being its identifying attributes plus its own group of values. */
module Descriptors {
  import opened Wrappers
  import opened Xml
  import opened Codec
  import Md = Metadata
  import opened Devices

  /** `_CUSTOM` and `_DEVICE`: the reserved keys of the VM group. */
  const CustomKey: string := "custom"
  const DeviceKey: string := "device"

  /** The dict holding one device's values. The source hands out a reference to
      it and later clears and refills it in place, so it is an object here. */
  class DeviceData {
    var data: map<string, PyValue>

    constructor (data: map<string, PyValue>)
      ensures this.data == data
    {
      this.data := data;
    }
  }

  /** One `(attrs, data)` entry of `_devices`. */
  datatype DeviceSlot = DeviceSlot(attrs: map<string, string>, data: DeviceData)

  /** The value an entry stands for. */
  datatype Device = Device(attrs: map<string, string>, data: map<string, PyValue>)

  /** What `device()` hands out: the stored dict it will refill, and the copy yielded. */
  datatype DeviceSession = DeviceSession(handle: DeviceData, data: map<string, PyValue>)

  /** The entries of `slots`, read as values. */
  function View(slots: seq<DeviceSlot>): (r: seq<Device>)
    reads set i | 0 <= i < |slots| :: slots[i].data
    ensures |r| == |slots|
    ensures forall i :: 0 <= i < |slots| ==> r[i] == Device(slots[i].attrs, slots[i].data.data)
    decreases |slots|
  {
    if slots == [] then []
    else
      var last := slots[|slots| - 1];
      View(slots[..|slots| - 1]) + [Device(last.attrs, last.data.data)]
  }

  // ---------------------------------------------------------------------
  // What `_load` reads from an element

  /** The custom properties: the group under the first `custom` child, or none. */
  function LoadCustom(md: Md.Metadata, e: Elem): Result<map<string, PyValue>, Error>
  {
    match Md.Find(md, e, CustomKey)
    case None => Ok(map[])
    case Some(c) => Md.LoadGroup(md, c)
  }

  /** The device list: each device element's attributes and loaded group, in document order. */
  function LoadDevices(md: Md.Metadata, elems: seq<Elem>): (r: Result<seq<Device>, Error>)
    decreases |elems|
  {
    if elems == [] then Ok([])
    else
      var last := elems[|elems| - 1];
      match LoadDevices(md, elems[..|elems| - 1])
      case Err(err) => Err(err)
      case Ok(ds) =>
        match Md.LoadGroup(md, last)
        case Err(err) => Err(err)
        case Ok(data) => Ok(ds + [Device(last.attrs, data)])
  }

  /** Loading the devices succeeds exactly when every device element loads, and
      then gives one entry per element, with a copy of its attributes. */
  lemma {:induction false} LoadDevicesShape(md: Md.Metadata, elems: seq<Elem>)
    ensures LoadDevices(md, elems).Ok? <==> forall i :: 0 <= i < |elems| ==> Md.LoadGroup(md, elems[i]).Ok?
    ensures LoadDevices(md, elems).Ok? ==>
              |LoadDevices(md, elems).value| == |elems|
              && forall i :: 0 <= i < |elems| ==>
                   LoadDevices(md, elems).value[i] == Device(elems[i].attrs, Md.LoadGroup(md, elems[i]).value)
    decreases |elems|
  {
    if elems != [] {
      var init := elems[..|elems| - 1];
      LoadDevicesShape(md, init);
      assert forall i :: 0 <= i < |init| ==> init[i] == elems[i];
    }
  }

  /** Loading one more device element. */
  lemma LoadDevicesStep(md: Md.Metadata, elems: seq<Elem>, i: nat)
    requires i < |elems| && LoadDevices(md, elems[..i]).Ok?
    ensures LoadDevices(md, elems[..i + 1])
         == match Md.LoadGroup(md, elems[i])
            case Err(err) => Err(err)
            case Ok(data) => Ok(LoadDevices(md, elems[..i]).value + [Device(elems[i].attrs, data)])
  {
    assert elems[..i + 1][..i] == elems[..i];
  }

  /** Once a prefix of the device elements fails to load, so does the whole list. */
  lemma {:induction false} LoadDevicesPrefixError(md: Md.Metadata, elems: seq<Elem>, n: nat)
    requires n <= |elems| && LoadDevices(md, elems[..n]).Err?
    ensures LoadDevices(md, elems) == LoadDevices(md, elems[..n])
    decreases |elems| - n
  {
    if n < |elems| {
      assert elems[..n + 1][..n] == elems[..n];
      LoadDevicesPrefixError(md, elems, n + 1);
    } else {
      assert elems[..n] == elems;
    }
  }

  // ---------------------------------------------------------------------
  // What `_build_xml` produces

  /** The devices `_build_xml` emits: those whose data is not empty, in order. */
  function NonEmpty(devs: seq<Device>): seq<Device>
    decreases |devs|
  {
    if devs == [] then []
    else
      var last := devs[|devs| - 1];
      NonEmpty(devs[..|devs| - 1]) + (if last.data != map[] then [last] else [])
  }

  lemma NonEmptyStep(devs: seq<Device>, i: nat)
    requires i < |devs|
    ensures NonEmpty(devs[..i + 1]) == NonEmpty(devs[..i]) + (if devs[i].data != map[] then [devs[i]] else [])
  {
    assert devs[..i + 1][..i] == devs[..i];
  }

  /** Every value that `_build_xml` dumps has a supported type. */
  predicate BuildSupported(values: map<string, PyValue>, custom: map<string, PyValue>, devs: seq<Device>)
  {
    Md.AllSupported(values) && Md.AllSupported(custom)
    && forall i :: 0 <= i < |devs| ==> Md.AllSupported(devs[i].data)
  }

  /** `orders[j]` is an iteration order of the keys of `kept[j]`'s data, whose
      values can all be dumped. */
  predicate DeviceOrders(kept: seq<Device>, orders: seq<seq<string>>)
  {
    |orders| == |kept|
    && forall j :: 0 <= j < |kept| ==> Md.AllSupported(kept[j].data) && Md.IsEnumeration(orders[j], kept[j].data.Keys)
  }

  /** The iteration orders `_build_xml` follows: one for the VM's values, one per
      emitted device and one for the custom properties. */
  predicate BuildOrders(values: map<string, PyValue>, custom: map<string, PyValue>, devs: seq<Device>,
                        ks: seq<string>, orders: seq<seq<string>>, cks: seq<string>)
  {
    Md.AllSupported(values) && Md.IsEnumeration(ks, values.Keys)
    && Md.AllSupported(custom) && Md.IsEnumeration(cks, custom.Keys)
    && DeviceOrders(NonEmpty(devs), orders)
  }

  /** The `device` element for `d`, its keys visited in the order `ks`: the dump
      of its data, carrying the device's attributes. */
  function DeviceElem(md: Md.Metadata, d: Device, ks: seq<string>): Elem
    requires Md.AllSupported(d.data) && Md.IsEnumeration(ks, d.data.Keys)
  {
    Md.GroupElem(md, DeviceKey, d.data, ks).(attrs := d.attrs)
  }

  /** `out` holds the `device` element of each device of `kept`, in order. */
  predicate DeviceDumps(md: Md.Metadata, kept: seq<Device>, orders: seq<seq<string>>, out: seq<Elem>)
  {
    DeviceOrders(kept, orders) && |out| == |kept|
    && forall j :: 0 <= j < |out| ==> out[j] == DeviceElem(md, kept[j], orders[j])
  }

  /** The element `_build_xml` builds for the given iteration orders: the dump of
      the VM's values, then one `device` element per device whose data is not
      empty, then, if there are custom properties, their dump. */
  function BuildElem(md: Md.Metadata, name: string, values: map<string, PyValue>, custom: map<string, PyValue>,
                     devs: seq<Device>, ks: seq<string>, orders: seq<seq<string>>, cks: seq<string>): Elem
    requires BuildOrders(values, custom, devs, ks, orders, cks)
  {
    var root := Md.GroupElem(md, name, values, ks);
    root.(children := root.children + DeviceElems(md, NonEmpty(devs), orders) + CustomElems(md, custom, cks))
  }

  /** The `device` elements for `kept`. */
  function DeviceElems(md: Md.Metadata, kept: seq<Device>, orders: seq<seq<string>>): seq<Elem>
    requires DeviceOrders(kept, orders)
  {
    seq(|kept|, j requires 0 <= j < |kept| => DeviceElem(md, kept[j], orders[j]))
  }

  /** The `custom` element, present only when there are custom properties. */
  function CustomElems(md: Md.Metadata, custom: map<string, PyValue>, cks: seq<string>): seq<Elem>
    requires Md.AllSupported(custom) && Md.IsEnumeration(cks, custom.Keys)
  {
    if custom == map[] then [] else [Md.GroupElem(md, CustomKey, custom, cks)]
  }

  /** The device list of `_load`: one fresh entry per device element, in document
      order, or the first error raised while loading them. */
  method LoadDeviceList(md: Md.Metadata, found: seq<Elem>) returns (r: Result<seq<DeviceSlot>, Error>, ghost vals: seq<Device>)
    ensures r.Err? ==> LoadDevices(md, found) == Err(r.error)
    ensures r.Ok? ==> LoadDevices(md, found) == Ok(vals) && |vals| == |r.value|
    ensures r.Ok? ==> forall j :: 0 <= j < |vals| ==> vals[j] == Device(r.value[j].attrs, r.value[j].data.data)
    ensures r.Ok? ==> |r.value| == |found| && forall j :: 0 <= j < |r.value| ==> fresh(r.value[j].data)
    ensures r.Ok? ==> forall j, k :: 0 <= j < k < |r.value| ==> r.value[j].data != r.value[k].data
  {
    var loaded: seq<DeviceSlot> := [];
    vals := [];
    var i := 0;
    while i < |found|
      invariant 0 <= i <= |found| && |loaded| == i && |vals| == i
      invariant forall j :: 0 <= j < i ==> fresh(loaded[j].data)
      invariant forall j, k :: 0 <= j < k < i ==> loaded[j].data != loaded[k].data
      invariant forall j :: 0 <= j < i ==> vals[j] == Device(loaded[j].attrs, loaded[j].data.data)
      invariant LoadDevices(md, found[..i]) == Ok(vals)
    {
      var d := Md.Load(md, found[i]);
      if d.Err? {
        LoadDevicesStep(md, found, i);
        LoadDevicesPrefixError(md, found, i + 1);
        return Err(d.error), vals;
      }
      LoadDevicesStep(md, found, i);
      var obj := new DeviceData(d.value);
      loaded := loaded + [DeviceSlot(found[i].attrs, obj)];
      vals := vals + [Device(found[i].attrs, d.value)];
      i := i + 1;
    }
    assert found[..i] == found;
    r := Ok(loaded);
  }

  /** One device of the loop of `_build_xml`: nothing when the device's data is
      empty, otherwise the dump of the data carrying the device's attributes. */
  method DumpDevice(md: Md.Metadata, d: Device) returns (r: Result<seq<Elem>, Error>, ghost ks: seq<seq<string>>)
    ensures r.Err? <==> !Md.AllSupported(d.data)
    ensures r.Err? ==> r.error.UnsupportedType?
    ensures r.Ok? ==> DeviceDumps(md, if d.data != map[] then [d] else [], ks, r.value)
  {
    if d.data == map[] {
      return Ok([]), [];
    }
    var dev: Result<Elem, Error>;
    ghost var dks: seq<string>;
    dev, dks := Md.Dump(md, DeviceKey, d.data);
    if dev.Err? {
      return Err(dev.error), [];
    }
    r, ks := Ok([dev.value.(attrs := d.attrs)]), [dks];
  }

  /** The pieces `_build_xml` assembles make up `BuildElem`. */
  lemma BuildElemOf(md: Md.Metadata, name: string, values: map<string, PyValue>, custom: map<string, PyValue>,
                    devs: seq<Device>, ks: seq<string>, orders: seq<seq<string>>, cks: seq<string>,
                    root: Elem, dout: seq<Elem>, tail: seq<Elem>)
    requires BuildOrders(values, custom, devs, ks, orders, cks)
    requires root == Md.GroupElem(md, name, values, ks)
    requires DeviceDumps(md, NonEmpty(devs), orders, dout)
    requires tail == if custom == map[] then [] else [Md.GroupElem(md, CustomKey, custom, cks)]
    ensures root.(children := root.children + dout + tail) == BuildElem(md, name, values, custom, devs, ks, orders, cks)
  {
    assert dout == DeviceElems(md, NonEmpty(devs), orders);
  }

  /** The loop of `_build_xml` over the devices: a `device` element, carrying the
      device's attributes, for every device whose data is not empty. */
  method DumpDevices(md: Md.Metadata, devs: seq<Device>) returns (r: Result<seq<Elem>, Error>, ghost orders: seq<seq<string>>)
    ensures r.Err? <==> exists i :: 0 <= i < |devs| && !Md.AllSupported(devs[i].data)
    ensures r.Err? ==> r.error.UnsupportedType?
    ensures r.Ok? ==> DeviceDumps(md, NonEmpty(devs), orders, r.value)
  {
    var out: seq<Elem> := [];
    orders := [];
    var i := 0;
    while i < |devs|
      invariant 0 <= i <= |devs|
      invariant forall j :: 0 <= j < i ==> Md.AllSupported(devs[j].data)
      invariant DeviceDumps(md, NonEmpty(devs[..i]), orders, out)
    {
      var piece: Result<seq<Elem>, Error>;
      ghost var ks: seq<seq<string>>;
      piece, ks := DumpDevice(md, devs[i]);
      if piece.Err? {
        return Err(piece.error), orders;
      }
      DeviceDumpsStep(md, devs, i, orders, out, ks, piece.value);
      out := out + piece.value;
      orders := orders + ks;
      i := i + 1;
    }
    assert devs[..i] == devs;
    r := Ok(out);
  }

  lemma DeviceDumpsStep(md: Md.Metadata, devs: seq<Device>, i: nat, orders: seq<seq<string>>, out: seq<Elem>,
                        ks: seq<seq<string>>, piece: seq<Elem>)
    requires i < |devs| && DeviceDumps(md, NonEmpty(devs[..i]), orders, out)
    requires DeviceDumps(md, if devs[i].data != map[] then [devs[i]] else [], ks, piece)
    ensures DeviceDumps(md, NonEmpty(devs[..i + 1]), orders + ks, out + piece)
  {
    NonEmptyStep(devs, i);
    DeviceDumpsConcat(md, NonEmpty(devs[..i]), orders, out, if devs[i].data != map[] then [devs[i]] else [], ks, piece);
  }

  lemma DeviceDumpsConcat(md: Md.Metadata, kept: seq<Device>, orders: seq<seq<string>>, out: seq<Elem>,
                          kept': seq<Device>, orders': seq<seq<string>>, out': seq<Elem>)
    requires DeviceDumps(md, kept, orders, out) && DeviceDumps(md, kept', orders', out')
    ensures DeviceDumps(md, kept + kept', orders + orders', out + out')
  {
    forall j | 0 <= j < |kept + kept'|
      ensures (kept + kept')[j] == (if j < |kept| then kept[j] else kept'[j - |kept|])
      ensures (orders + orders')[j] == (if j < |kept| then orders[j] else orders'[j - |kept|])
      ensures (out + out')[j] == (if j < |kept| then out[j] else out'[j - |kept|])
    {
    }
  }

  // ---------------------------------------------------------------------
  // Loading what `_build_xml` built

  /** A `type` attribute that `_elem_to_keyvalue` cannot apply to an element
      without text: loading the VM group converts every child, device
      elements included. */
  predicate LoadableAttrs(attrs: map<string, string>)
  {
    Get(attrs, "type") != Some("int") && Get(attrs, "type") != Some("float")
  }

  /** The `device` elements load back to the devices, and as children of the VM
      group they contribute at most the key `device`. */
  lemma DeviceElemsLoad(md: Md.Metadata, kept: seq<Device>, orders: seq<seq<string>>)
    requires DeviceOrders(kept, orders)
    requires forall j :: 0 <= j < |kept| ==> Md.Plain(md, kept[j].data) && LoadableAttrs(kept[j].attrs)
    ensures LoadDevices(md, DeviceElems(md, kept, orders)) == Ok(kept)
    ensures Md.LoadChildren(md, DeviceElems(md, kept, orders)).Ok?
    ensures Md.LoadChildren(md, DeviceElems(md, kept, orders)).value.Keys <= {DeviceKey}
    ensures Tagged(DeviceElems(md, kept, orders), Md.AddNs(md, DeviceKey)) == DeviceElems(md, kept, orders)
    ensures Tagged(DeviceElems(md, kept, orders), Md.AddNs(md, CustomKey)) == []
  {
    var dkids := DeviceElems(md, kept, orders);
    DeviceElemsGroups(md, kept, orders);
    DeviceElemsAsChildren(md, kept, orders);
    Md.AddNsInjective(md, DeviceKey, CustomKey);
    TaggedAll(dkids, Md.AddNs(md, DeviceKey));
    TaggedNone(dkids, Md.AddNs(md, CustomKey));
  }

  lemma DeviceElemsGroups(md: Md.Metadata, kept: seq<Device>, orders: seq<seq<string>>)
    requires DeviceOrders(kept, orders)
    requires forall j :: 0 <= j < |kept| ==> Md.Plain(md, kept[j].data)
    ensures LoadDevices(md, DeviceElems(md, kept, orders)) == Ok(kept)
  {
    var dkids := DeviceElems(md, kept, orders);
    forall j | 0 <= j < |kept|
      ensures Md.LoadGroup(md, dkids[j]) == Ok(kept[j].data)
      ensures dkids[j].attrs == kept[j].attrs
    {
      Md.LoadDumpRoundTrip(md, DeviceKey, kept[j].data, orders[j]);
      assert dkids[j].children == Md.GroupElem(md, DeviceKey, kept[j].data, orders[j]).children;
    }
    LoadDevicesShape(md, dkids);
    var loaded := LoadDevices(md, dkids).value;
    assert |loaded| == |kept|;
    assert forall j :: 0 <= j < |kept| ==> loaded[j] == kept[j];
    assert loaded == kept;
  }

  lemma DeviceElemsAsChildren(md: Md.Metadata, kept: seq<Device>, orders: seq<seq<string>>)
    requires DeviceOrders(kept, orders)
    requires forall j :: 0 <= j < |kept| ==> LoadableAttrs(kept[j].attrs)
    ensures Md.LoadChildren(md, DeviceElems(md, kept, orders)).Ok?
    ensures Md.LoadChildren(md, DeviceElems(md, kept, orders)).value.Keys <= {DeviceKey}
  {
    var dkids := DeviceElems(md, kept, orders);
    forall j | 0 <= j < |kept|
      ensures ElemToKeyValue(dkids[j]).Ok?
    {
      ElemToKeyValueCases(dkids[j]);
    }
    Md.LoadChildrenOk(md, dkids);
    Md.LoadChildrenKeys(md, dkids);
    Md.WordIsNsFree(md, DeviceKey);
    Md.NsRoundTrip(md, DeviceKey);
  }

  /** The `custom` element loads back to the custom properties, and as a child of
      the VM group it contributes at most the key `custom`. */
  lemma CustomElemsLoad(md: Md.Metadata, custom: map<string, PyValue>, cks: seq<string>)
    requires Md.AllSupported(custom) && Md.IsEnumeration(cks, custom.Keys) && Md.Plain(md, custom)
    ensures Md.LoadChildren(md, CustomElems(md, custom, cks)).Ok?
    ensures Md.LoadChildren(md, CustomElems(md, custom, cks)).value.Keys <= {CustomKey}
    ensures Tagged(CustomElems(md, custom, cks), Md.AddNs(md, CustomKey)) == CustomElems(md, custom, cks)
    ensures Tagged(CustomElems(md, custom, cks), Md.AddNs(md, DeviceKey)) == []
    ensures custom != map[] ==> Md.LoadGroup(md, CustomElems(md, custom, cks)[0]) == Ok(custom)
  {
    var ckids := CustomElems(md, custom, cks);
    if custom != map[] {
      Md.LoadDumpRoundTrip(md, CustomKey, custom, cks);
      ElemToKeyValueCases(ckids[0]);
    }
    Md.LoadChildrenOk(md, ckids);
    Md.LoadChildrenKeys(md, ckids);
    Md.WordIsNsFree(md, CustomKey);
    Md.NsRoundTrip(md, CustomKey);
    Md.AddNsInjective(md, DeviceKey, CustomKey);
    TaggedAll(ckids, Md.AddNs(md, CustomKey));
    TaggedNone(ckids, Md.AddNs(md, DeviceKey));
  }

  /** The children for the VM's own values carry neither reserved tag. */
  lemma ValueElemsTags(md: Md.Metadata, values: map<string, PyValue>, ks: seq<string>)
    requires Md.AllSupported(values) && Md.IsEnumeration(ks, values.Keys)
    requires CustomKey !in values && DeviceKey !in values
    ensures Tagged(Md.GroupElem(md, "", values, ks).children, Md.AddNs(md, CustomKey)) == []
    ensures Tagged(Md.GroupElem(md, "", values, ks).children, Md.AddNs(md, DeviceKey)) == []
  {
    var vkids := Md.GroupElem(md, "", values, ks).children;
    Md.GroupChildrenShape(md, values, ks);
    forall i | 0 <= i < |vkids|
      ensures vkids[i].tag != Md.AddNs(md, CustomKey) && vkids[i].tag != Md.AddNs(md, DeviceKey)
    {
      Md.AddNsInjective(md, ks[i], CustomKey);
      Md.AddNsInjective(md, ks[i], DeviceKey);
    }
    TaggedNone(vkids, Md.AddNs(md, CustomKey));
    TaggedNone(vkids, Md.AddNs(md, DeviceKey));
  }

  lemma DropReserved(values: map<string, PyValue>, d: map<string, PyValue>, c: map<string, PyValue>)
    requires CustomKey !in values && DeviceKey !in values
    requires d.Keys <= {DeviceKey} && c.Keys <= {CustomKey}
    ensures values + d + c - {CustomKey, DeviceKey} == values
  {
  }

  /** `_load(_build_xml())` restores the descriptor: the VM's values, the custom
      properties and the devices, except the devices whose data was empty, which
      `_build_xml` does not write. The values must round-trip exactly (strings,
      ints and bools, keys free of the namespace prefix), the VM's values must not
      use the reserved keys, and no device that is written may carry a `type`
      attribute saying int or float, since loading the VM group converts the
      device elements too. */
  lemma BuildLoadRoundTrip(md: Md.Metadata, name: string, values: map<string, PyValue>, custom: map<string, PyValue>,
                           devs: seq<Device>, ks: seq<string>, orders: seq<seq<string>>, cks: seq<string>)
    requires BuildOrders(values, custom, devs, ks, orders, cks)
    requires Md.Plain(md, values) && Md.Plain(md, custom)
    requires forall i :: 0 <= i < |NonEmpty(devs)| ==> Md.Plain(md, NonEmpty(devs)[i].data) && LoadableAttrs(NonEmpty(devs)[i].attrs)
    requires CustomKey !in values && DeviceKey !in values
    ensures var e := BuildElem(md, name, values, custom, devs, ks, orders, cks);
            && Md.LoadGroup(md, e).Ok?
            && Md.LoadGroup(md, e).value - {CustomKey, DeviceKey} == values
            && LoadCustom(md, e) == Ok(custom)
            && LoadDevices(md, Md.FindAll(md, e, DeviceKey)) == Ok(NonEmpty(devs))
  {
    var kept := NonEmpty(devs);
    NonEmptyMembers(devs);
    var vkids := Md.GroupElem(md, name, values, ks).children;
    var dkids := DeviceElems(md, kept, orders);
    var ckids := CustomElems(md, custom, cks);
    var e := BuildElem(md, name, values, custom, devs, ks, orders, cks);
    assert e.children == vkids + dkids + ckids;
    assert vkids == Md.GroupElem(md, "", values, ks).children;
    DeviceElemsLoad(md, kept, orders);
    CustomElemsLoad(md, custom, cks);
    ValueElemsTags(md, values, ks);
    // the VM group
    Md.LoadDumpRoundTrip(md, name, values, ks);
    Md.LoadChildrenConcat(md, vkids, dkids);
    Md.LoadChildrenConcat(md, vkids + dkids, ckids);
    DropReserved(values, Md.LoadChildren(md, dkids).value, Md.LoadChildren(md, ckids).value);
    // the custom properties
    TaggedConcat(vkids, dkids, Md.AddNs(md, CustomKey));
    TaggedConcat(vkids + dkids, ckids, Md.AddNs(md, CustomKey));
    assert Md.FindAll(md, e, CustomKey) == ckids;
    // the devices
    TaggedConcat(vkids, dkids, Md.AddNs(md, DeviceKey));
    TaggedConcat(vkids + dkids, ckids, Md.AddNs(md, DeviceKey));
    assert Md.FindAll(md, e, DeviceKey) == dkids;
  }

  /** Every emitted device is one of the devices. */
  lemma {:induction false} NonEmptyMembers(devs: seq<Device>)
    ensures forall d :: d in NonEmpty(devs) ==> d in devs && d.data != map[]
    decreases |devs|
  {
    if devs != [] {
      NonEmptyMembers(devs[..|devs| - 1]);
      assert forall d :: d in devs[..|devs| - 1] ==> d in devs;
    }
  }

  class Descriptor {
    const name: string
    const namespace: Option<string>
    const namespaceUri: Option<string>
    var values: map<string, PyValue>
    var custom: map<string, PyValue>
    var devices: seq<DeviceSlot>

    /** The per-device dicts currently in the list. */
    ghost function Repr(): set<DeviceData>
      reads this
    {
      set i | 0 <= i < |devices| :: devices[i].data
    }

    /** Each entry has a dict of its own. */
    ghost predicate Valid()
      reads this
    {
      forall i, j :: 0 <= i < j < |devices| ==> devices[i].data != devices[j].data
    }

    /** The device list as values. */
    ghost function Devices(): seq<Device>
      reads this, Repr()
    {
      View(devices)
    }

    /** An empty descriptor. */
    constructor (name: string, namespace: Option<string>, namespaceUri: Option<string>)
      ensures Valid()
      ensures this.name == name && this.namespace == namespace && this.namespaceUri == namespaceUri
      ensures values == map[] && custom == map[] && devices == []
    {
      this.name := name;
      this.namespace := namespace;
      this.namespaceUri := namespaceUri;
      values := map[];
      custom := map[];
      devices := [];
    }

    /** `_find_device`: the data of the one device whose attributes match `kwargs`,
        `None` if none does, `MissingDevice` if several do. */
    function FindDevice(kwargs: map<string, string>): (r: Result<Option<DeviceData>, Error>)
      reads this
      ensures r.Err? <==> exists i, j :: 0 <= i < j < |devices|
                                         && Matches(kwargs, devices[i].attrs) && Matches(kwargs, devices[j].attrs)
      ensures r.Err? ==> r.error == MissingDevice
      ensures r == Ok(None) <==> forall i :: 0 <= i < |devices| ==> !Matches(kwargs, devices[i].attrs)
      ensures r.Ok? && r.value.Some? ==>
                exists i :: 0 <= i < |devices| && Matches(kwargs, devices[i].attrs) && devices[i].data == r.value.value
                            && forall j :: 0 <= j < |devices| && j != i ==> !Matches(kwargs, devices[j].attrs)
    {
      match FindUnique(devices, (s: DeviceSlot) => Matches(kwargs, s.attrs))
      case Err(err) => Err(err)
      case Ok(None) => Ok(None)
      case Ok(Some(s)) => Ok(Some(s.data))
    }

    /** `_add_device`: append a new device with a copy of `attrs` and empty data,
        returning the new (mutable) data. */
    method AddDevice(attrs: map<string, string>) returns (d: DeviceData)
      requires Valid()
      modifies this
      ensures Valid() && fresh(d) && d.data == map[]
      ensures devices == old(devices) + [DeviceSlot(attrs, d)]
      ensures Devices() == old(Devices()) + [Device(attrs, map[])]
      ensures values == old(values) && custom == old(custom)
    {
      d := new DeviceData(map[]);
      devices := devices + [DeviceSlot(attrs, d)];
      assert devices[..|devices| - 1] == old(devices);
    }

    /** Entering `device(**kwargs)`: find the device, or add one for `kwargs` when
        none matches, and yield a copy of its data. */
    method DeviceEnter(kwargs: map<string, string>) returns (r: Result<DeviceSession, Error>)
      requires Valid()
      modifies this
      ensures Valid()
      ensures values == old(values) && custom == old(custom)
      ensures old(FindDevice(kwargs)).Err? ==> r == Err(MissingDevice) && devices == old(devices)
      ensures old(FindDevice(kwargs)).Ok? && old(FindDevice(kwargs)).value.Some? ==>
                devices == old(devices)
                && r == Ok(DeviceSession(old(FindDevice(kwargs)).value.value, old(FindDevice(kwargs)).value.value.data))
      ensures old(FindDevice(kwargs)) == Ok(None) ==>
                r.Ok? && fresh(r.value.handle) && r.value.data == map[] && r.value.handle.data == map[]
                && devices == old(devices) + [DeviceSlot(kwargs, r.value.handle)]
                && Devices() == old(Devices()) + [Device(kwargs, map[])]
    {
      var found := FindDevice(kwargs);
      if found.Err? {
        return Err(found.error);
      }
      var d: DeviceData;
      if found.value.Some? {
        d := found.value.value;
      } else {
        d := AddDevice(kwargs);
      }
      r := Ok(DeviceSession(d, d.data));
    }

    /** Leaving `device()`: the stored dict is cleared and refilled with the
        yielded copy, so it ends up equal to it (no merge). Nothing else changes. */
    method DeviceExit(handle: DeviceData, data: map<string, PyValue>)
      requires Valid()
      modifies handle
      ensures handle.data == data
      ensures forall i :: 0 <= i < |devices| && devices[i].data == handle ==>
                Devices() == old(Devices())[i := Device(devices[i].attrs, data)]
      ensures handle !in Repr() ==> Devices() == old(Devices())
    {
      handle.data := data;
    }

    /** Entering `values()`: a copy of the VM's values. */
    method ValuesEnter() returns (data: map<string, PyValue>)
      ensures data == values
    {
      data := values;
    }

    /** Leaving `values()`: the VM's values are replaced by the yielded copy. */
    method ValuesExit(data: map<string, PyValue>)
      modifies this`values
      ensures values == data
    {
      values := data;
    }

    /** The `custom` property: the custom properties, returned by value. */
    function Custom(): (r: map<string, PyValue>)
      reads this
      ensures r == custom
    {
      custom
    }

    /** `_load`: split the metadata element into values, custom properties and
        devices. An exception leaves the state as it was when it was raised. */
    method Load(e: Elem, namespace: Option<string>, namespaceUri: Option<string>) returns (err: Option<Error>)
      requires Valid()
      modifies this
      ensures Valid()
      ensures var md := Md.Metadata(namespace, namespaceUri);
              var vs := Md.LoadGroup(md, e);
              var cu := LoadCustom(md, e);
              var ds := LoadDevices(md, Md.FindAll(md, e, DeviceKey));
              if vs.Err? then
                err == Some(vs.error) && values == old(values) && custom == old(custom) && devices == old(devices)
              else if cu.Err? then
                err == Some(cu.error) && values == old(values) && custom == old(custom) && devices == old(devices)
              else if ds.Err? then
                err == Some(ds.error) && values == old(values) && custom == cu.value && devices == old(devices)
              else
                err == None && values == vs.value - {CustomKey, DeviceKey} && custom == cu.value
                && Devices() == ds.value && forall i :: 0 <= i < |devices| ==> fresh(devices[i].data)
    {
      var md := Md.Metadata(namespace, namespaceUri);
      var mdData := Md.Load(md, e);
      if mdData.Err? {
        return Some(mdData.error);
      }
      var customElem := Md.Find(md, e, CustomKey);
      if customElem.Some? {
        var c := Md.Load(md, customElem.value);
        if c.Err? {
          return Some(c.error);
        }
        custom := c.value;
      } else {
        custom := map[];
      }
      assert LoadCustom(md, e) == Ok(custom);
      var loaded: Result<seq<DeviceSlot>, Error>;
      ghost var ds: seq<Device>;
      loaded, ds := LoadDeviceList(md, Md.FindAll(md, e, DeviceKey));
      if loaded.Err? {
        return Some(loaded.error);
      }
      devices := loaded.value;
      values := mdData.value - {CustomKey, DeviceKey};
      assert Devices() == ds;
      err := None;
    }

    /** `_build_xml`, up to formatting: the metadata element holding everything the
        descriptor stores, built for the iteration orders returned alongside, or
        `UnsupportedType` for a value that cannot be dumped. */
    method BuildXml(namespace: Option<string>, namespaceUri: Option<string>)
      returns (r: Result<Elem, Error>, ghost ks: seq<string>, ghost orders: seq<seq<string>>, ghost cks: seq<string>)
      ensures r.Err? <==> !BuildSupported(values, custom, Devices())
      ensures r.Err? ==> r.error.UnsupportedType?
      ensures r.Ok? ==> BuildOrders(values, custom, Devices(), ks, orders, cks)
                        && r.value == BuildElem(Md.Metadata(namespace, namespaceUri), name, values, custom,
                                                Devices(), ks, orders, cks)
    {
      var dv := View(devices);
      var md := Md.Metadata(namespace, namespaceUri);
      var root: Result<Elem, Error>;
      root, ks := Md.Dump(md, name, values);
      orders, cks := [], [];
      if root.Err? {
        return Err(root.error), ks, orders, cks;
      }
      var devs: Result<seq<Elem>, Error>;
      devs, orders := DumpDevices(md, dv);
      if devs.Err? {
        return Err(devs.error), ks, orders, cks;
      }
      var tail: seq<Elem> := [];
      if custom != map[] {
        var cust: Result<Elem, Error>;
        cust, cks := Md.Dump(md, CustomKey, custom);
        if cust.Err? {
          return Err(cust.error), ks, orders, cks;
        }
        tail := [cust.value];
      }
      assert Devices() == dv;
      BuildElemOf(md, name, values, custom, dv, ks, orders, cks, root.value, devs.value, tail);
      r := Ok(root.value.(children := root.value.children + devs.value + tail));
    }
  }
}
