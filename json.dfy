/**
 * Typed, optional-returning extraction of values from JSON nodes. A node
 * pointer is an `Option<Json>`: `None` is a null pointer.
 */
module Json {
  import opened Wrappers

  /** The payload of a REAL node, kept abstract. */
  datatype RealToken = RealToken(token: nat)

  datatype Json =
    | JObject(members: map<string, Json>)
    | JArray(elements: seq<Json>)
    | JString(text: string)
    | JInteger(number: int)
    | JReal(payload: RealToken)
    | JTrue
    | JFalse
    | JNull

  /** The type tag of a node (json_typeof). */
  datatype JsonType = ObjectType | ArrayType | StringType | IntegerType | RealType | TrueType | FalseType | NullType

  function TypeOf(j: Json): JsonType
  {
    match j
    case JObject(_) => ObjectType
    case JArray(_) => ArrayType
    case JString(_) => StringType
    case JInteger(_) => IntegerType
    case JReal(_) => RealType
    case JTrue => TrueType
    case JFalse => FalseType
    case JNull => NullType
  }

  /** A string as C code reads it through a `char *`: everything before its first NUL. */
  function CString(s: string): (r: string)
    ensures r <= s
    ensures '\0' !in r
    ensures |r| < |s| ==> s[|r|] == '\0'
  {
    if s == [] || s[0] == '\0' then [] else [s[0]] + CString(s[1..])
  }

  /** convertFromJson<std::string>: the text of a STRING node, read as a C string. */
  function StringFromJson(o: Option<Json>): (r: Option<string>)
    ensures r.Some? <==> o.Some? && TypeOf(o.value) == StringType
    ensures r.Some? ==> r.value == CString(o.value.text)
  {
    if o.None? then None
    else if TypeOf(o.value) == StringType then Some(CString(o.value.text))
    else None
  }

  /** convertFromJson<bool>: the truth value of a TRUE or FALSE node. */
  function BoolFromJson(o: Option<Json>): (r: Option<bool>)
    ensures r.Some? <==> o.Some? && (TypeOf(o.value) == TrueType || TypeOf(o.value) == FalseType)
    ensures r.Some? ==> (r.value <==> TypeOf(o.value) == TrueType)
  {
    if o.None? then None
    else
      var t := TypeOf(o.value);
      if t == TrueType || t == FalseType then Some(o.value.JTrue?)
      else None
  }

  /** convertFromJson<int>: the value of an INTEGER node; a REAL node is not converted. */
  function IntFromJson(o: Option<Json>): (r: Option<int>)
    ensures r.Some? <==> o.Some? && TypeOf(o.value) == IntegerType
    ensures r.Some? ==> r.value == o.value.number
  {
    if o.None? then None
    else if TypeOf(o.value) == IntegerType then Some(o.value.number)
    else None
  }

  /** convertFromJson<float>: the value of a REAL node; an INTEGER node is not converted. */
  function FloatFromJson(o: Option<Json>): (r: Option<RealToken>)
    ensures r.Some? <==> o.Some? && TypeOf(o.value) == RealType
    ensures r.Some? ==> r.value == o.value.payload
  {
    if o.None? then None
    else if TypeOf(o.value) == RealType then Some(o.value.payload)
    else None
  }

  /** convertFromJson<double>: the value of a REAL node; an INTEGER node is not converted. */
  function DoubleFromJson(o: Option<Json>): (r: Option<RealToken>)
    ensures r.Some? <==> o.Some? && TypeOf(o.value) == RealType
    ensures r.Some? ==> r.value == o.value.payload
  {
    if o.None? then None
    else if TypeOf(o.value) == RealType then Some(o.value.payload)
    else None
  }

  /** The target types convertFromJson is instantiated at; `OtherTarget` is any unspecialised type. */
  datatype Target = StringTarget | BoolTarget | IntTarget | FloatTarget | DoubleTarget | OtherTarget

  /** A converted value, tagged with the C++ type it was converted to. */
  datatype Typed =
    | StringValue(s: string)
    | BoolValue(b: bool)
    | IntValue(i: int)
    | FloatValue(f: RealToken)
    | DoubleValue(d: RealToken)

  /** The C++ result type a value belongs to. */
  function TargetOf(v: Typed): Target
  {
    match v
    case StringValue(_) => StringTarget
    case BoolValue(_) => BoolTarget
    case IntValue(_) => IntTarget
    case FloatValue(_) => FloatTarget
    case DoubleValue(_) => DoubleTarget
  }

  /** The tag table: which node types each target accepts. */
  predicate Accepts(t: Target, tag: JsonType)
  {
    match t
    case StringTarget => tag == StringType
    case BoolTarget => tag == TrueType || tag == FalseType
    case IntTarget => tag == IntegerType
    case FloatTarget => tag == RealType
    case DoubleTarget => tag == RealType
    case OtherTarget => false
  }

  /** convertFromJson<T>, dispatched on the target type. */
  function ConvertFromJson(t: Target, o: Option<Json>): (r: Option<Typed>)
    ensures r.Some? ==> TargetOf(r.value) == t
  {
    match t
    case StringTarget => (match StringFromJson(o) case Some(s) => Some(StringValue(s)) case None => None)
    case BoolTarget => (match BoolFromJson(o) case Some(b) => Some(BoolValue(b)) case None => None)
    case IntTarget => (match IntFromJson(o) case Some(i) => Some(IntValue(i)) case None => None)
    case FloatTarget => (match FloatFromJson(o) case Some(f) => Some(FloatValue(f)) case None => None)
    case DoubleTarget => (match DoubleFromJson(o) case Some(d) => Some(DoubleValue(d)) case None => None)
    case OtherTarget => None
  }

  /** json_object_get: the member `key` of an object node; null for a null root, a non-object or a missing key. */
  function ObjectGet(root: Option<Json>, key: string): (r: Option<Json>)
    ensures r.Some? <==> root.Some? && root.value.JObject? && key in root.value.members
    ensures r.Some? ==> r.value == root.value.members[key]
  {
    if root.Some? && root.value.JObject? && key in root.value.members then Some(root.value.members[key])
    else None
  }

  /** jsonSafeGet<T>: look the C form of `key` up in `root` and convert the member found. */
  function JsonSafeGet(t: Target, root: Option<Json>, key: string): (r: Option<Typed>)
    ensures ObjectGet(root, CString(key)).None? ==> r.None?
    ensures r.Some? ==> TargetOf(r.value) == t
  {
    var val := ObjectGet(root, CString(key));
    if val.None? then None else ConvertFromJson(t, val)
  }

  /** Every conversion succeeds exactly on the node types of the tag table. */
  lemma ConvertAcceptsExactly(t: Target, o: Option<Json>)
    ensures ConvertFromJson(t, o).Some? <==> o.Some? && Accepts(t, TypeOf(o.value))
  {
  }

  /** A null node converts to nothing, whatever the target. */
  lemma ConvertNullIsEmpty(t: Target)
    ensures ConvertFromJson(t, None) == None
  {
  }

  /** The unspecialised template never yields a value. */
  lemma UnspecialisedIsEmpty(o: Option<Json>)
    ensures ConvertFromJson(OtherTarget, o) == None
  {
  }

  /** The value converted is the node's own payload. */
  lemma ConvertedValue(t: Target, j: Json)
    requires ConvertFromJson(t, Some(j)).Some?
    ensures t == StringTarget ==> ConvertFromJson(t, Some(j)) == Some(StringValue(CString(j.text)))
    ensures t == BoolTarget ==> ConvertFromJson(t, Some(j)) == Some(BoolValue(j == JTrue))
    ensures t == IntTarget ==> ConvertFromJson(t, Some(j)) == Some(IntValue(j.number))
    ensures t == FloatTarget ==> ConvertFromJson(t, Some(j)) == Some(FloatValue(j.payload))
    ensures t == DoubleTarget ==> ConvertFromJson(t, Some(j)) == Some(DoubleValue(j.payload))
  {
  }

  /** Numbers are not coerced: INTEGER nodes are not reals, REAL nodes are not integers. */
  lemma NoNumericCoercion(n: int, x: RealToken)
    ensures ConvertFromJson(IntTarget, Some(JReal(x))) == None
    ensures ConvertFromJson(FloatTarget, Some(JInteger(n))) == None
    ensures ConvertFromJson(DoubleTarget, Some(JInteger(n))) == None
  {
  }

  /** jsonSafeGet is empty for a missing member and otherwise converts the member found under the key's C form. */
  lemma SafeGetIsConvertOfMember(t: Target, root: Option<Json>, key: string)
    ensures root.Some? && root.value.JObject? && CString(key) in root.value.members ==>
      JsonSafeGet(t, root, key) == ConvertFromJson(t, Some(root.value.members[CString(key)]))
    ensures !(root.Some? && root.value.JObject? && CString(key) in root.value.members) ==>
      JsonSafeGet(t, root, key) == None
  {
  }

  /** A string without a NUL reads whole: such a key is looked up, and such a STRING value returned, unchanged. */
  lemma NulFreeIsWhole(s: string)
    requires '\0' !in s
    ensures CString(s) == s
  {
  }

  /** A key with an embedded NUL is looked up by its prefix: "a\0b" finds the member "a". */
  lemma EmbeddedNulCutsKey()
    ensures JsonSafeGet(IntTarget, Some(JObject(map["a" := JInteger(1)])), "a\0b") == Some(IntValue(1))
  {
    var root := Some(JObject(map["a" := JInteger(1)]));
    assert CString("\0b") == [];
    assert CString("a\0b") == ['a'] + CString("\0b") == "a";
    assert ObjectGet(root, "a") == Some(JInteger(1));
  }
}
