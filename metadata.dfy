/** The `Metadata` class: loading and dumping one flat group of key/value
    pairs from or to an element, optionally qualifying tags with a namespace. */
module Metadata {
  import opened Wrappers
  import opened Text
  import opened Xml
  import opened Codec

  /** A `Metadata` object; its fields are set once, by the constructor. */
  datatype Metadata = Metadata(namespace: Option<string>, namespaceUri: Option<string>)

  /** `self._prefix`: `{uri}` when a namespace is given (Python formats a
      missing URI as `None`), no prefix otherwise. */
  function Prefix(md: Metadata): (r: Option<string>)
    ensures r.Some? <==> md.namespace.Some?
    ensures r.Some? ==> |r.value| >= 2 && r.value[0] == '{' && r.value[|r.value| - 1] == '}'
  {
    if md.namespace.None? then None
    else
      var uri := match md.namespaceUri case None => "None" case Some(u) => u;
      Some("{" + uri + "}")
  }

  /** `_add_ns`. */
  function AddNs(md: Metadata, tag: string): string
  {
    match Prefix(md)
    case None => tag
    case Some(p) => p + tag
  }

  /** `_strip_ns`: every occurrence of the prefix is removed, not only a leading one. */
  function StripNs(md: Metadata, tag: string): string
  {
    match Prefix(md)
    case None => tag
    case Some(p) => RemoveAll(tag, p)
  }

  /** The tag does not itself contain the namespace prefix. */
  predicate NsFree(md: Metadata, tag: string)
  {
    Prefix(md).None? || !Occurs(Prefix(md).value, tag)
  }

  /** Stripping undoes adding; without a namespace both are the identity. */
  lemma NsRoundTrip(md: Metadata, t: string)
    requires NsFree(md, t)
    ensures StripNs(md, AddNs(md, t)) == t
    ensures md.namespace.None? ==> AddNs(md, t) == t && StripNs(md, t) == t
  {
    if Prefix(md).Some? {
      RemoveAllPrefixed(Prefix(md).value, t);
    }
  }

  /** Distinct keys get distinct tags. */
  lemma AddNsInjective(md: Metadata, a: string, b: string)
    requires a != b
    ensures AddNs(md, a) != AddNs(md, b)
  {
    if Prefix(md).Some? {
      var p := Prefix(md).value;
      assert (p + a)[|p|..] == a && (p + b)[|p|..] == b;
    }
  }

  /** A plain word (no `{`) never contains the prefix. */
  lemma WordIsNsFree(md: Metadata, t: string)
    requires '{' !in t
    ensures NsFree(md, t)
  {
    if Prefix(md).Some? {
      NoOccurrenceWithoutFirstChar(Prefix(md).value, t);
    }
  }

  /** `findall`: the children of `e` tagged `tag` in the namespace, in document order. */
  function FindAll(md: Metadata, e: Elem, tag: string): seq<Elem>
  {
    Tagged(e.children, AddNs(md, tag))
  }

  /** `findall` yields exactly the children carrying the namespaced tag. */
  lemma FindAllMembers(md: Metadata, e: Elem, tag: string)
    ensures forall x :: x in FindAll(md, e, tag) ==> x in e.children && x.tag == AddNs(md, tag)
    ensures forall i :: 0 <= i < |e.children| && e.children[i].tag == AddNs(md, tag) ==> e.children[i] in FindAll(md, e, tag)
  {
    TaggedMembers(e.children, AddNs(md, tag));
  }

  /** `find`: the first child tagged `tag` in the namespace, if there is one. */
  function Find(md: Metadata, e: Elem, tag: string): Option<Elem>
  {
    var all := FindAll(md, e, tag);
    if all == [] then None else Some(all[0])
  }

  /** `find` succeeds exactly when some child carries the tag, and then yields the first such child. */
  lemma FindFirst(md: Metadata, e: Elem, tag: string)
    ensures Find(md, e, tag).Some? <==> exists i :: 0 <= i < |e.children| && e.children[i].tag == AddNs(md, tag)
    ensures Find(md, e, tag).Some? ==>
              exists i :: 0 <= i < |e.children| && e.children[i] == Find(md, e, tag).value
                          && e.children[i].tag == AddNs(md, tag)
                          && forall j :: 0 <= j < i ==> e.children[j].tag != AddNs(md, tag)
  {
    TaggedMembers(e.children, AddNs(md, tag));
    if FindAll(md, e, tag) != [] {
      TaggedFirst(e.children, AddNs(md, tag));
    }
  }

  // ---------------------------------------------------------------------
  // load

  /** What `load` computes after visiting the children `cs` in order: later
      children with the same stripped key overwrite earlier ones. */
  function LoadChildren(md: Metadata, cs: seq<Elem>): Result<map<string, PyValue>, Error>
    decreases |cs|
  {
    if cs == [] then Ok(map[])
    else
      var init := cs[..|cs| - 1];
      var last := cs[|cs| - 1];
      match LoadChildren(md, init)
      case Err(err) => Err(err)
      case Ok(m) =>
        match ElemToKeyValue(last)
        case Err(err) => Err(err)
        case Ok(kv) => Ok(m[StripNs(md, kv.0) := kv.1])
  }

  /** Loading fails exactly when some child fails to convert. */
  lemma {:induction false} LoadChildrenOk(md: Metadata, cs: seq<Elem>)
    ensures LoadChildren(md, cs).Ok? <==> forall i :: 0 <= i < |cs| ==> ElemToKeyValue(cs[i]).Ok?
    decreases |cs|
  {
    if cs != [] {
      var init := cs[..|cs| - 1];
      LoadChildrenOk(md, init);
      assert forall i :: 0 <= i < |init| ==> init[i] == cs[i];
    }
  }

  /** The keys of the children `cs`: their tags without the namespace. */
  function StrippedTags(md: Metadata, cs: seq<Elem>): set<string>
  {
    set i | 0 <= i < |cs| :: StripNs(md, cs[i].tag)
  }

  lemma StrippedTagsSnoc(md: Metadata, cs: seq<Elem>)
    requires cs != []
    ensures StrippedTags(md, cs) == StrippedTags(md, cs[..|cs| - 1]) + {StripNs(md, cs[|cs| - 1].tag)}
  {
    var init := cs[..|cs| - 1];
    forall i | 0 <= i < |cs|
      ensures StripNs(md, cs[i].tag) in StrippedTags(md, init) + {StripNs(md, cs[|cs| - 1].tag)}
    {
      if i < |init| {
        assert cs[i] == init[i];
      }
    }
    forall i | 0 <= i < |init|
      ensures StripNs(md, init[i].tag) in StrippedTags(md, cs)
    {
      assert init[i] == cs[i];
    }
  }

  /** A successful load has one key per distinct stripped tag. */
  lemma {:induction false} LoadChildrenKeys(md: Metadata, cs: seq<Elem>)
    requires LoadChildren(md, cs).Ok?
    ensures LoadChildren(md, cs).value.Keys == StrippedTags(md, cs)
    decreases |cs|
  {
    if cs != [] {
      var init := cs[..|cs| - 1];
      LoadChildrenKeys(md, init);
      ElemToKeyValueCases(cs[|cs| - 1]);
      StrippedTagsSnoc(md, cs);
    }
  }

  function LoadGroup(md: Metadata, e: Elem): Result<map<string, PyValue>, Error>
  {
    LoadChildren(md, e.children)
  }

  /** `Metadata.load`: one entry per child, keyed by the tag without namespace. */
  method Load(md: Metadata, e: Elem) returns (r: Result<map<string, PyValue>, Error>)
    ensures r == LoadGroup(md, e)
  {
    var values: map<string, PyValue> := map[];
    var i := 0;
    while i < |e.children|
      invariant 0 <= i <= |e.children|
      invariant LoadChildren(md, e.children[..i]) == Ok(values)
    {
      var child := e.children[i];
      assert e.children[..i + 1][..i] == e.children[..i];
      match ElemToKeyValue(child)
      case Err(err) =>
        LoadPrefixError(md, e.children, i + 1);
        return Err(err);
      case Ok(kv) =>
        values := values[StripNs(md, kv.0) := kv.1];
      i := i + 1;
    }
    assert e.children[..i] == e.children;
    r := Ok(values);
  }

  /** Once a prefix fails to load, so does the whole sequence, with the same error. */
  lemma {:induction false} LoadPrefixError(md: Metadata, cs: seq<Elem>, n: nat)
    requires n <= |cs| && LoadChildren(md, cs[..n]).Err?
    ensures LoadChildren(md, cs) == LoadChildren(md, cs[..n])
    decreases |cs| - n
  {
    if n < |cs| {
      assert cs[..n + 1][..n] == cs[..n];
      LoadPrefixError(md, cs, n + 1);
    } else {
      assert cs[..n] == cs;
    }
  }

  /** Loading one more child adds (or overwrites) its key. */
  lemma LoadChildrenSnoc(md: Metadata, cs: seq<Elem>, c: Elem)
    requires LoadChildren(md, cs).Ok? && ElemToKeyValue(c).Ok?
    ensures LoadChildren(md, cs + [c])
         == Ok(LoadChildren(md, cs).value[StripNs(md, ElemToKeyValue(c).value.0) := ElemToKeyValue(c).value.1])
  {
    assert (cs + [c])[..|cs|] == cs;
  }

  lemma UnionUpdate(m1: map<string, PyValue>, m2: map<string, PyValue>, k: string, v: PyValue)
    ensures (m1 + m2)[k := v] == m1 + m2[k := v]
  {
  }

  /** Loading a concatenation: the second part's keys win over the first's. */
  lemma {:induction false} LoadChildrenConcat(md: Metadata, a: seq<Elem>, b: seq<Elem>)
    requires LoadChildren(md, a).Ok? && LoadChildren(md, b).Ok?
    ensures LoadChildren(md, a + b) == Ok(LoadChildren(md, a).value + LoadChildren(md, b).value)
    decreases |b|
  {
    if b == [] {
      assert a + b == a;
      assert LoadChildren(md, a).value + map[] == LoadChildren(md, a).value;
    } else {
      var b', c := b[..|b| - 1], b[|b| - 1];
      assert b == b' + [c];
      assert a + b == (a + b') + [c];
      assert LoadChildren(md, b').Ok? && ElemToKeyValue(c).Ok?;
      LoadChildrenConcat(md, a, b');
      LoadChildrenSnoc(md, b', c);
      LoadChildrenSnoc(md, a + b', c);
      var kv := ElemToKeyValue(c).value;
      UnionUpdate(LoadChildren(md, a).value, LoadChildren(md, b').value, StripNs(md, kv.0), kv.1);
    }
  }

  // ---------------------------------------------------------------------
  // dump

  /** `ks` lists every key of `keys` exactly once: one iteration order of a dict. */
  predicate IsEnumeration(ks: seq<string>, keys: set<string>)
  {
    (forall i, j :: 0 <= i < j < |ks| ==> ks[i] != ks[j]) && (forall k :: k in ks ==> k in keys) && (forall k :: k in keys ==> k in ks)
  }

  predicate AllSupported(kv: map<string, PyValue>)
  {
    forall k :: k in kv ==> Supported(kv[k])
  }

  /** The subelement `_keyvalue_to_elem` builds for `key`. */
  function ValueChild(md: Metadata, key: string, v: PyValue): Elem
    requires Supported(v)
  {
    Elem(AddNs(md, key), TypeAttrs(v), Some(Str(v)), [])
  }

  lemma ValueChildConverts(md: Metadata, key: string, v: PyValue)
    requires Supported(v)
    ensures KeyValueToElem(AddNs(md, key), v) == Ok(ValueChild(md, key, v))
  {
  }

  /** The subelements `dump` appends when it visits the keys in the order `ks`. */
  function GroupChildren(md: Metadata, kv: map<string, PyValue>, ks: seq<string>): seq<Elem>
    requires forall k :: k in ks ==> k in kv && Supported(kv[k])
    decreases |ks|
  {
    if ks == [] then []
    else GroupChildren(md, kv, ks[..|ks| - 1]) + [ValueChild(md, ks[|ks| - 1], kv[ks[|ks| - 1]])]
  }

  /** The `i`-th subelement is the one for the `i`-th key visited. */
  lemma {:induction false} GroupChildrenShape(md: Metadata, kv: map<string, PyValue>, ks: seq<string>)
    requires forall k :: k in ks ==> k in kv && Supported(kv[k])
    ensures |GroupChildren(md, kv, ks)| == |ks|
    ensures forall i :: 0 <= i < |ks| ==> GroupChildren(md, kv, ks)[i] == ValueChild(md, ks[i], kv[ks[i]])
    decreases |ks|
  {
    if ks != [] {
      var init := ks[..|ks| - 1];
      GroupChildrenShape(md, kv, init);
      assert forall i :: 0 <= i < |init| ==> init[i] == ks[i];
    }
  }

  /** The element `dump(name, **kv)` returns when it visits the keys in the order `ks`. */
  function GroupElem(md: Metadata, name: string, kv: map<string, PyValue>, ks: seq<string>): Elem
    requires forall k :: k in ks ==> k in kv && Supported(kv[k])
  {
    Elem(AddNs(md, name), map[], None, GroupChildren(md, kv, ks))
  }

  method Dump(md: Metadata, name: string, kv: map<string, PyValue>) returns (r: Result<Elem, Error>, ghost ks: seq<string>)
    ensures r.Err? <==> !AllSupported(kv)
    ensures r.Err? ==> exists k :: k in kv && !Supported(kv[k]) && r.error == UnsupportedType(kv[k])
    ensures r.Ok? ==> IsEnumeration(ks, kv.Keys) && r.value == GroupElem(md, name, kv, ks)
  {
    var children: seq<Elem> := [];
    var rest := kv.Keys;
    ks := [];
    while rest != {}
      invariant rest <= kv.Keys
      invariant forall k :: k in ks <==> k in kv && k !in rest
      invariant forall i, j :: 0 <= i < j < |ks| ==> ks[i] != ks[j]
      invariant forall k :: k in ks ==> Supported(kv[k])
      invariant children == GroupChildren(md, kv, ks)
      decreases rest
    {
      var k :| k in rest;
      var sub := KeyValueToElem(AddNs(md, k), kv[k]);
      if sub.Err? {
        return Err(sub.error), ks;
      }
      ValueChildConverts(md, k, kv[k]);
      assert (ks + [k])[..|ks|] == ks;
      children := children + [sub.value];
      ks := ks + [k];
      rest := rest - {k};
    }
    r := Ok(Elem(AddNs(md, name), map[], None, children));
  }

  // ---------------------------------------------------------------------
  // round trip

  /** The values round-trip exactly (no floats) and no key contains the prefix. */
  predicate Plain(md: Metadata, kv: map<string, PyValue>)
  {
    forall k :: k in kv ==> Exact(kv[k]) && NsFree(md, k)
  }

  lemma {:induction false} LoadGroupChildren(md: Metadata, kv: map<string, PyValue>, ks: seq<string>)
    requires forall k :: k in ks ==> k in kv && Supported(kv[k]) && Exact(kv[k]) && NsFree(md, k)
    ensures LoadChildren(md, GroupChildren(md, kv, ks)) == Ok(map k | k in ks :: kv[k])
    decreases |ks|
  {
    if ks != [] {
      var init := ks[..|ks| - 1];
      var k := ks[|ks| - 1];
      assert forall x :: x in init ==> x in ks;
      LoadGroupChildren(md, kv, init);
      var c := ValueChild(md, k, kv[k]);
      assert GroupChildren(md, kv, ks) == GroupChildren(md, kv, init) + [c];
      ValueChildConverts(md, k, kv[k]);
      KeyValueRoundTrip(AddNs(md, k), kv[k]);
      assert ElemToKeyValue(c) == Ok((AddNs(md, k), kv[k]));
      NsRoundTrip(md, k);
      LoadChildrenSnoc(md, GroupChildren(md, kv, init), c);
      RestrictSnoc(kv, ks);
    }
  }

  lemma RestrictSnoc(kv: map<string, PyValue>, ks: seq<string>)
    requires ks != [] && forall x :: x in ks ==> x in kv
    ensures (map x | x in ks[..|ks| - 1] :: kv[x])[ks[|ks| - 1] := kv[ks[|ks| - 1]]] == map x | x in ks :: kv[x]
  {
    assert ks == ks[..|ks| - 1] + [ks[|ks| - 1]];
  }

  lemma RestrictAll(kv: map<string, PyValue>, ks: seq<string>)
    requires IsEnumeration(ks, kv.Keys)
    ensures (map k | k in ks :: kv[k]) == kv
  {
  }

  /** `load(dump(name, **kv)) == kv` for strings, ints and bools, whatever order
      `dump` visited the keys in. */
  lemma LoadDumpRoundTrip(md: Metadata, name: string, kv: map<string, PyValue>, ks: seq<string>)
    requires AllSupported(kv) && IsEnumeration(ks, kv.Keys) && Plain(md, kv)
    ensures LoadGroup(md, GroupElem(md, name, kv, ks)) == Ok(kv)
  {
    LoadGroupChildren(md, kv, ks);
    RestrictAll(kv, ks);
  }

  // ---------------------------------------------------------------------
  // calling dump with a group as keyword arguments

  /** How Python binds `dump(name, **kv)` to `def dump(self, name, **kwargs)`:
      a key equal to a named parameter is that parameter given twice. */
  function BindDumpArgs(kv: map<string, PyValue>): (r: Result<map<string, PyValue>, Error>)
    ensures r.Err? <==> "self" in kv || "name" in kv
    ensures r.Ok? ==> r.value == kv
  {
    if "self" in kv then Err(ArgumentClash("self"))
    else if "name" in kv then Err(ArgumentClash("name"))
    else Ok(kv)
  }

  /** A group holding the key `name` has a perfectly good dump, which loads
      back to the group, yet the call as written raises before building it. */
  lemma NameKeyIsRejected(md: Metadata)
    requires md.namespace.None?
    ensures var kv := map["name" := VStr("vm0")];
            BindDumpArgs(kv).Err? && LoadGroup(md, GroupElem(md, "vm", kv, ["name"])) == Ok(kv)
  {
    var kv := map["name" := VStr("vm0")];
    NsRoundTrip(md, "name");
    LoadGroupChildren(md, kv, ["name"]);
    RestrictAll(kv, ["name"]);
  }
}
