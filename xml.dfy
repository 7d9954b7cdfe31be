/** An ElementTree element, abstracted from its textual XML form. */
module Xml {
  import opened Wrappers

  /** `tag` carries the namespace as a `{uri}` prefix, as ElementTree does;
      `text` is `None` for an element without text. */
  datatype Elem = Elem(tag: string, attrs: map<string, string>, text: Option<string>, children: seq<Elem>)

  /** Python's `attrs.get(key)`. */
  function Get(attrs: map<string, string>, key: string): (r: Option<string>)
    ensures r.Some? <==> key in attrs
    ensures r.Some? ==> r.value == attrs[key]
  {
    if key in attrs then Some(attrs[key]) else None
  }

  /** The elements of `cs` whose tag is `t`, in document order: the direct
      children that ElementTree's `findall(t)` yields for a plain tag path. */
  function Tagged(cs: seq<Elem>, t: string): seq<Elem>
    decreases |cs|
  {
    if cs == [] then []
    else if cs[0].tag == t then [cs[0]] + Tagged(cs[1..], t)
    else Tagged(cs[1..], t)
  }

  /** The filter keeps exactly the elements with tag `t`. */
  lemma {:induction false} TaggedMembers(cs: seq<Elem>, t: string)
    ensures |Tagged(cs, t)| <= |cs|
    ensures forall x :: x in Tagged(cs, t) ==> x in cs && x.tag == t
    ensures forall i :: 0 <= i < |cs| && cs[i].tag == t ==> cs[i] in Tagged(cs, t)
    decreases |cs|
  {
    if cs != [] {
      TaggedMembers(cs[1..], t);
      assert forall x :: x in cs[1..] ==> x in cs;
      forall i | 1 <= i < |cs| && cs[i].tag == t
        ensures cs[i] in Tagged(cs, t)
      {
        assert cs[i] == cs[1..][i - 1];
      }
    }
  }

  /** No element carries the tag: nothing is kept. */
  lemma {:induction false} TaggedNone(cs: seq<Elem>, t: string)
    requires forall i :: 0 <= i < |cs| ==> cs[i].tag != t
    ensures Tagged(cs, t) == []
    decreases |cs|
  {
    if cs != [] {
      TaggedNone(cs[1..], t);
    }
  }

  /** Every element carries the tag: everything is kept. */
  lemma {:induction false} TaggedAll(cs: seq<Elem>, t: string)
    requires forall i :: 0 <= i < |cs| ==> cs[i].tag == t
    ensures Tagged(cs, t) == cs
    decreases |cs|
  {
    if cs != [] {
      TaggedAll(cs[1..], t);
      assert cs == [cs[0]] + cs[1..];
    }
  }

  /** Filtering by tag distributes over concatenation, so it keeps document order. */
  lemma {:induction false} TaggedConcat(a: seq<Elem>, b: seq<Elem>, t: string)
    ensures Tagged(a + b, t) == Tagged(a, t) + Tagged(b, t)
    decreases |a|
  {
    if a == [] {
      assert a + b == b;
    } else {
      assert (a + b)[1..] == a[1..] + b;
      TaggedConcat(a[1..], b, t);
    }
  }

  /** The first element of the filtered sequence is the first element with that tag. */
  lemma {:induction false} TaggedFirst(cs: seq<Elem>, t: string)
    requires Tagged(cs, t) != []
    ensures exists i :: 0 <= i < |cs| && cs[i] == Tagged(cs, t)[0] && cs[i].tag == t
                        && forall j :: 0 <= j < i ==> cs[j].tag != t
    decreases |cs|
  {
    if cs[0].tag != t {
      TaggedFirst(cs[1..], t);
      var i :| 0 <= i < |cs[1..]| && cs[1..][i] == Tagged(cs[1..], t)[0] && cs[1..][i].tag == t
               && forall j :: 0 <= j < i ==> cs[1..][j].tag != t;
      assert cs[i + 1] == Tagged(cs, t)[0];
      forall j | 0 <= j < i + 1 ensures cs[j].tag != t {
        if j > 0 { assert cs[j] == cs[1..][j - 1]; }
      }
    }
  }
}
