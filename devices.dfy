/** Identifying one device by its attributes: `_match_args` and the module-level
    `_find_device`, and the "none, exactly one, or MissingDevice" outcome they share
    with `Descriptor._find_device`. */
module Devices {
  import opened Wrappers
  import opened Xml
  import opened Codec

  /** Every requested attribute is present with an equal value. */
  predicate Matches(kwargs: map<string, string>, attrs: map<string, string>)
  {
    forall k :: k in kwargs ==> k in attrs && attrs[k] == kwargs[k]
  }

  /** `_match_args`: the loop over the requested attributes, returning early on a mismatch. */
  method MatchArgs(kwargs: map<string, string>, attrs: map<string, string>) returns (r: bool)
    ensures r <==> Matches(kwargs, attrs)
  {
    var rest := kwargs.Keys;
    while rest != {}
      invariant rest <= kwargs.Keys
      invariant forall k :: k in kwargs && k !in rest ==> k in attrs && attrs[k] == kwargs[k]
      decreases rest
    {
      var k :| k in rest;
      if k !in attrs || attrs[k] != kwargs[k] {
        return false;
      }
      rest := rest - {k};
    }
    return true;
  }

  /** Attributes that are not requested do not affect the match, and asking for
      nothing matches every device. */
  lemma MatchIgnoresExtraAttrs(kwargs: map<string, string>, attrs: map<string, string>, extra: map<string, string>)
    requires extra.Keys !! kwargs.Keys
    ensures Matches(kwargs, attrs + extra) <==> Matches(kwargs, attrs)
    ensures Matches(map[], attrs)
  {
  }

  /** The elements of `xs` that satisfy `p`, in order (a list comprehension). */
  function Filter<T>(xs: seq<T>, p: T -> bool): seq<T>
    decreases |xs|
  {
    if xs == [] then [] else (if p(xs[0]) then [xs[0]] else []) + Filter(xs[1..], p)
  }

  /** How many elements the filter keeps, in terms of the positions that satisfy `p`. */
  lemma {:induction false} FilterSize<T>(xs: seq<T>, p: T -> bool)
    ensures Filter(xs, p) == [] <==> forall i :: 0 <= i < |xs| ==> !p(xs[i])
    ensures |Filter(xs, p)| > 1 <==> exists i, j :: 0 <= i < j < |xs| && p(xs[i]) && p(xs[j])
    ensures |Filter(xs, p)| == 1 ==>
              exists i :: 0 <= i < |xs| && p(xs[i]) && Filter(xs, p)[0] == xs[i]
                          && forall j :: 0 <= j < |xs| && j != i ==> !p(xs[j])
    decreases |xs|
  {
    if xs != [] {
      var tail := xs[1..];
      FilterSize(tail, p);
      assert forall i :: 0 < i < |xs| ==> xs[i] == tail[i - 1];
      if p(xs[0]) {
        if tail != [] && exists i :: 0 <= i < |tail| && p(tail[i]) {
          var i :| 0 <= i < |tail| && p(tail[i]);
          assert p(xs[0]) && p(xs[i + 1]);
        }
        if |Filter(xs, p)| > 1 {
          assert Filter(tail, p) != [];
          var i :| 0 <= i < |tail| && p(tail[i]);
          assert p(xs[i + 1]);
        }
      } else {
        if exists i, j :: 0 <= i < j < |xs| && p(xs[i]) && p(xs[j]) {
          var i, j :| 0 <= i < j < |xs| && p(xs[i]) && p(xs[j]);
          assert p(tail[i - 1]) && p(tail[j - 1]);
        }
        if |Filter(xs, p)| == 1 {
          var i :| 0 <= i < |tail| && p(tail[i]) && Filter(tail, p)[0] == tail[i]
                   && forall j :: 0 <= j < |tail| && j != i ==> !p(tail[j]);
          assert xs[i + 1] == tail[i];
          forall j | 0 <= j < |xs| && j != i + 1 ensures !p(xs[j]) {
            if j > 0 { assert xs[j] == tail[j - 1]; }
          }
        }
      }
    }
  }

  /** `None` when nothing satisfies `p`, `MissingDevice` when more than one does,
      otherwise the one element that does. */
  function FindUnique<T>(xs: seq<T>, p: T -> bool): (r: Result<Option<T>, Error>)
    ensures r.Err? <==> exists i, j :: 0 <= i < j < |xs| && p(xs[i]) && p(xs[j])
    ensures r.Err? ==> r.error == MissingDevice
    ensures r == Ok(None) <==> forall i :: 0 <= i < |xs| ==> !p(xs[i])
    ensures r.Ok? && r.value.Some? ==>
              exists i :: 0 <= i < |xs| && p(xs[i]) && xs[i] == r.value.value
                          && forall j :: 0 <= j < |xs| && j != i ==> !p(xs[j])
  {
    FilterSize(xs, p);
    var found := Filter(xs, p);
    if |found| > 1 then Err(MissingDevice)
    else if found == [] then Ok(None)
    else Ok(Some(found[0]))
  }

  /** The tag of a device element, qualified by the URI when one is given. */
  function DeviceTag(namespaceUri: Option<string>): string
  {
    match namespaceUri
    case None => "device"
    case Some(uri) => "{" + uri + "}device"
  }

  /** The module-level `_find_device`: among the direct children of `vm` that are
      device elements, the one whose attributes match all of `attrs`. */
  function FindDevice(vm: Elem, attrs: map<string, string>, namespaceUri: Option<string>): (r: Result<Option<Elem>, Error>)
    ensures r.Err? <==> exists i, j :: 0 <= i < j < |vm.children|
                                       && vm.children[i].tag == DeviceTag(namespaceUri) && Matches(attrs, vm.children[i].attrs)
                                       && vm.children[j].tag == DeviceTag(namespaceUri) && Matches(attrs, vm.children[j].attrs)
    ensures r.Err? ==> r.error == MissingDevice
    ensures r == Ok(None) <==> forall i :: 0 <= i < |vm.children| ==>
                                 !(vm.children[i].tag == DeviceTag(namespaceUri) && Matches(attrs, vm.children[i].attrs))
    ensures r.Ok? && r.value.Some? ==>
              r.value.value in vm.children && r.value.value.tag == DeviceTag(namespaceUri) && Matches(attrs, r.value.value.attrs)
  {
    var tag := DeviceTag(namespaceUri);
    FindUnique(vm.children, (e: Elem) => e.tag == tag && Matches(attrs, e.attrs))
  }
}
