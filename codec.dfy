/** The typed transcoding of one key/value pair to and from one element
    (`_keyvalue_to_elem` and `_elem_to_keyvalue`). */
module Codec {
  import opened Wrappers
  import opened Text
  import opened Xml

  /** A Python value handed to the marshaller. A float is kept as the text
      `str()` gives for it; `VNone` is Python's `None`; `VOther` is any other
      Python object (a list, a dict, ...), named by its type. */
  datatype PyValue =
    | VStr(s: string)
    | VInt(i: int)
    | VBool(b: bool)
    | VFloat(repr: string)
    | VNone
    | VOther(typeName: string)

  /** The exceptions the core raises. */
  datatype Error =
    | UnsupportedType(value: PyValue)  // metadata.UnsupportedType
    | MissingDevice                    // metadata.MissingDevice
    | InvalidLiteral(text: string)     // ValueError from int() or float() on a typed element
    | MissingText                      // TypeError from int(None) or float(None)
    | ArgumentClash(key: string)       // TypeError: a keyword argument given twice

  /** The types `_keyvalue_to_elem` accepts. */
  predicate Supported(v: PyValue)
  {
    v.VStr? || v.VInt? || v.VBool? || v.VFloat?
  }

  /** The supported values whose text conversion is exact (floats excluded). */
  predicate Exact(v: PyValue)
  {
    Supported(v) && !v.VFloat?
  }

  /** Python's `str(v)`. */
  function Str(v: PyValue): string
    requires Supported(v)
  {
    match v
    case VStr(s) => s
    case VInt(i) => IntToString(i)
    case VBool(b) => if b then "True" else "False"
    case VFloat(repr) => repr
  }

  /** The `type` attribute written for a supported value: none for strings. */
  function TypeAttrs(v: PyValue): map<string, string>
    requires Supported(v)
  {
    match v
    case VStr(_) => map[]
    case VInt(_) => map["type" := "int"]
    case VBool(_) => map["type" := "bool"]
    case VFloat(_) => map["type" := "float"]
  }

  /** `_keyvalue_to_elem`: the subelement holding one value. Bools are tested
      before ints in the source, which the separate `VBool` case mirrors. */
  function KeyValueToElem(key: string, v: PyValue): (r: Result<Elem, Error>)
    ensures r.Err? <==> !Supported(v)
    ensures r.Err? ==> r.error == UnsupportedType(v)
    ensures r.Ok? ==> r.value.tag == key && r.value.children == [] && r.value.text == Some(Str(v))
    ensures r.Ok? ==> ("type" in r.value.attrs <==> !v.VStr?) && r.value.attrs.Keys <= {"type"}
    ensures r.Ok? && v.VBool? ==> r.value.attrs["type"] == "bool"
    ensures r.Ok? && v.VInt? ==> r.value.attrs["type"] == "int"
    ensures r.Ok? && v.VFloat? ==> r.value.attrs["type"] == "float"
  {
    if Supported(v) then Ok(Elem(key, TypeAttrs(v), Some(Str(v)), [])) else Err(UnsupportedType(v))
  }

  /** `conv.tobool`, which is not part of this model: what this model assumes of it
      is that it maps `str(True)` to true and `str(False)` to false. */
  function ToBool(text: Option<string>): bool
  {
    text == Some("True")
  }

  /** The value of an element loaded without conversion: its text, or `None`. */
  function RawValue(text: Option<string>): PyValue
  {
    match text
    case None => VNone
    case Some(s) => VStr(s)
  }

  /** Python's `int(text)` on an element's text. */
  function IntValue(text: Option<string>): (r: Result<PyValue, Error>)
    ensures r.Ok? ==> r.value.VInt?
  {
    match text
    case None => Err(MissingText)
    case Some(s) =>
      match ParseInt(s)
      case None => Err(InvalidLiteral(s))
      case Some(i) => Ok(VInt(i))
  }

  /** `_elem_to_keyvalue`: the key is the tag, the value the text converted
      according to the `type` attribute. */
  function ElemToKeyValue(e: Elem): Result<(string, PyValue), Error>
  {
    match Get(e.attrs, "type")
    case Some("bool") => Ok((e.tag, VBool(ToBool(e.text))))
    case Some("int") =>
      (match IntValue(e.text)
       case Err(err) => Err(err)
       case Ok(v) => Ok((e.tag, v)))
    case Some("float") =>
      (match e.text
       case None => Err(MissingText)
       case Some(s) => if IsFloatLiteral(s) then Ok((e.tag, VFloat(s))) else Err(InvalidLiteral(s)))
    case _ => Ok((e.tag, RawValue(e.text)))
  }

  /** The key is always the tag; an element without a known `type` is read as
      raw text; only a bad or missing int or float literal fails. */
  lemma ElemToKeyValueCases(e: Elem)
    ensures ElemToKeyValue(e).Ok? ==> ElemToKeyValue(e).value.0 == e.tag
    ensures Get(e.attrs, "type") !in {Some("bool"), Some("int"), Some("float")} ==> ElemToKeyValue(e) == Ok((e.tag, RawValue(e.text)))
    ensures Get(e.attrs, "type") == Some("bool") ==> ElemToKeyValue(e) == Ok((e.tag, VBool(ToBool(e.text))))
    ensures ElemToKeyValue(e).Err? <==>
              ((Get(e.attrs, "type") == Some("int") && (e.text.None? || ParseInt(e.text.value).None?))
               || (Get(e.attrs, "type") == Some("float") && (e.text.None? || !IsFloatLiteral(e.text.value))))
  {
  }

  /** Loading what was dumped gives back the key and the value, for strings, ints and bools. */
  lemma KeyValueRoundTrip(key: string, v: PyValue)
    requires Exact(v)
    ensures KeyValueToElem(key, v).Ok?
    ensures ElemToKeyValue(KeyValueToElem(key, v).value) == Ok((key, v))
  {
    if v.VInt? {
      IntRoundTrip(v.i);
    }
  }

  /** A float element keeps its text when `float()` accepts it, as for the
      version in the descriptor's docstring. */
  lemma FloatElemAccepts()
    ensures ElemToKeyValue(Elem("version", map["type" := "float"], Some("4.2"), [])) == Ok(("version", VFloat("4.2")))
  {
    var s := "4.2";
    StripUnpadded(s);
    assert DigitRun(s[2..]) == 1;
    assert DigitRun(s[1..]) == 0;
    assert DigitRun(s) == 1;
    assert IsDecimal(s);
  }

  /** A float element whose text `float()` rejects raises `ValueError`. */
  lemma FloatElemRejects()
    ensures ElemToKeyValue(Elem("x", map["type" := "float"], Some("abc"), [])) == Err(InvalidLiteral("abc"))
  {
    var s := "abc";
    StripUnpadded(s);
    assert DigitRun(s) == 0;
    assert !IsDecimal(s);
    assert LowerAscii(s) == s;
  }
}
