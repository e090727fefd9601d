/** JSON documents as the adapters exchange them: the request bodies they
    build as dictionary literals and the response bodies they decode with
    `JSONDecoder` into their `Codable` structs. An object keeps its members
    in the order the source writes them; lookups take the first member with
    the key. */
module Json {
  import opened Wrappers

  datatype Value =
    | JNull
    | JBool(b: bool)
    | JNumber(mantissa: int, exponent: int)  // mantissa * 10^exponent, so 0.7 is JNumber(7, -1)
    | JString(s: string)
    | JArray(items: seq<Value>)
    | JObject(members: seq<Member>)

  datatype Member = Member(key: string, value: Value)

  /** The value stored under `key`, if any. */
  function Lookup(members: seq<Member>, key: string): (r: Option<Value>)
    ensures r.Some? <==> exists i :: 0 <= i < |members| && members[i].key == key
    ensures r.Some? ==> exists i :: 0 <= i < |members| && members[i] == Member(key, r.value)
  {
    if members == [] then None
    else if members[0].key == key then Some(members[0].value)
    else
      var r := Lookup(members[1..], key);
      assert forall i :: 0 < i < |members| ==> members[i] == members[1..][i - 1];
      r
  }

  /** The first member with the key is the one found. */
  lemma {:induction false} LookupAt(members: seq<Member>, key: string, i: nat)
    requires i < |members| && members[i].key == key
    requires forall j :: 0 <= j < i ==> members[j].key != key
    ensures Lookup(members, key) == Some(members[i].value)
    decreases i
  {
    if i > 0 {
      LookupAt(members[1..], key, i - 1);
    }
  }

  predicate HasKey(v: Value, key: string) {
    v.JObject? && Lookup(v.members, key).Some?
  }

  /** How many string leaves of the document equal `s`. */
  function CountString(v: Value, s: string): nat
    decreases v, 1
  {
    match v
    case JString(t) => if t == s then 1 else 0
    case JArray(items) => CountStringItems(items, s)
    case JObject(members) => CountStringMembers(members, s)
    case _ => 0
  }

  function CountStringItems(items: seq<Value>, s: string): nat
    decreases items, 0
  {
    if items == [] then 0 else CountString(items[0], s) + CountStringItems(items[1..], s)
  }

  function CountStringMembers(members: seq<Member>, s: string): nat
    decreases members, 0
  {
    if members == [] then 0
    else CountString(members[0].value, s) + CountStringMembers(members[1..], s)
  }

  /** A one-member object counts what its value counts. */
  lemma CountStringSingleMember(key: string, v: Value, s: string)
    ensures CountString(JObject([Member(key, v)]), s) == CountString(v, s)
  {
    var members := [Member(key, v)];
    assert members[0].value == v && members[1..] == [];
    assert CountStringMembers(members, s) == CountString(v, s) + CountStringMembers([], s);
  }

  /** A one-element array counts what its element counts. */
  lemma CountStringSingleItem(v: Value, s: string)
    ensures CountString(JArray([v]), s) == CountString(v, s)
  {
    var items := [v];
    assert items[0] == v && items[1..] == [];
    assert CountStringItems(items, s) == CountString(v, s) + CountStringItems([], s);
  }

  // ---------------------------------------------------------------------
  // Decoding, as JSONDecoder does for the fields of a Codable struct

  /** Why a document does not decode: a required key is absent, holds
      `null`, or holds a value of the wrong type. */
  datatype DecodeError =
    | KeyNotFound(key: string)
    | ValueNotFound(key: string)
    | TypeMismatch(key: string)
  {
    /** The `localizedDescription` Foundation gives these errors. */
    function Description(): string {
      match this
      case KeyNotFound(_) => "The data couldn\U{2019}t be read because it is missing."
      case ValueNotFound(_) => "The data couldn\U{2019}t be read because it is missing."
      case TypeMismatch(_) => "The data couldn\U{2019}t be read because it isn\U{2019}t in the correct format."
    }
  }

  /** The members of an object; `what` names the value for the error. */
  function AsObject(v: Value, what: string): (r: Result<seq<Member>, DecodeError>)
    ensures r.Ok? <==> v.JObject?
  {
    if v.JObject? then Ok(v.members) else Err(TypeMismatch(what))
  }

  /** A non-optional field: absent, null or mistyped fails. */
  function Required(members: seq<Member>, key: string): (r: Result<Value, DecodeError>)
    ensures r.Ok? <==> Lookup(members, key).Some? && Lookup(members, key).value != JNull
    ensures r.Ok? ==> Lookup(members, key) == Some(r.value)
  {
    match Lookup(members, key)
    case None => Err(KeyNotFound(key))
    case Some(JNull) => Err(ValueNotFound(key))
    case Some(v) => Ok(v)
  }

  /** A `String` field. */
  function RequiredString(members: seq<Member>, key: string): (r: Result<string, DecodeError>)
    ensures r.Ok? <==> Lookup(members, key).Some? && Lookup(members, key).value.JString?
    ensures r.Ok? ==> Lookup(members, key) == Some(JString(r.value))
  {
    var v :- Required(members, key);
    if v.JString? then Ok(v.s) else Err(TypeMismatch(key))
  }

  /** A `Bool` field. */
  function RequiredBool(members: seq<Member>, key: string): (r: Result<bool, DecodeError>)
    ensures r.Ok? <==> Lookup(members, key).Some? && Lookup(members, key).value.JBool?
    ensures r.Ok? ==> Lookup(members, key) == Some(JBool(r.value))
  {
    var v :- Required(members, key);
    if v.JBool? then Ok(v.b) else Err(TypeMismatch(key))
  }

  /** An array field. */
  function RequiredArray(members: seq<Member>, key: string): (r: Result<seq<Value>, DecodeError>)
    ensures r.Ok? <==> Lookup(members, key).Some? && Lookup(members, key).value.JArray?
    ensures r.Ok? ==> Lookup(members, key) == Some(JArray(r.value))
  {
    var v :- Required(members, key);
    if v.JArray? then Ok(v.items) else Err(TypeMismatch(key))
  }

  /** A `String?` field: absent or null decodes to nil. */
  function OptionalString(members: seq<Member>, key: string): (r: Result<Option<string>, DecodeError>)
    ensures r == Ok(None) <==> Lookup(members, key).None? || Lookup(members, key) == Some(JNull)
    ensures r.Ok? && r.value.Some? <==> Lookup(members, key).Some? && Lookup(members, key).value.JString?
    ensures r.Ok? && r.value.Some? ==> Lookup(members, key) == Some(JString(r.value.value))
  {
    match Lookup(members, key)
    case None => Ok(None)
    case Some(JNull) => Ok(None)
    case Some(JString(s)) => Ok(Some(s))
    case Some(_) => Err(TypeMismatch(key))
  }

  /** The value under `key` when `v` is an object holding it. */
  function Field(v: Value, key: string): Option<Value> {
    if v.JObject? then Lookup(v.members, key) else None
  }

  /** `v` holds an array under `key`. */
  predicate HasArray(v: Value, key: string) {
    Field(v, key).Some? && Field(v, key).value.JArray?
  }

  /** `v` holds a string under `key`. */
  predicate HasString(v: Value, key: string) {
    Field(v, key).Some? && Field(v, key).value.JString?
  }

  /** Every item decodes. */
  predicate AllDecode<T>(items: seq<Value>, decode: Value -> Result<T, DecodeError>) {
    forall i :: 0 <= i < |items| ==> decode(items[i]).Ok?
  }

  /** `xs` are the items decoded, one for one and in order. */
  predicate DecodedAs<T(==)>(items: seq<Value>, decode: Value -> Result<T, DecodeError>, xs: seq<T>) {
    |xs| == |items| && forall i :: 0 <= i < |items| ==> decode(items[i]) == Ok(xs[i])
  }

  /** Decodes every element of an array with `decode`; the first failure
      fails the whole array. */
  function DecodeEach<T>(items: seq<Value>, decode: Value -> Result<T, DecodeError>): (r: Result<seq<T>, DecodeError>)
    ensures r.Ok? <==> forall i :: 0 <= i < |items| ==> decode(items[i]).Ok?
    ensures r.Ok? ==> |r.value| == |items| && forall i :: 0 <= i < |items| ==> decode(items[i]) == Ok(r.value[i])
    decreases |items|
  {
    if items == [] then Ok([])
    else
      match decode(items[0])
      case Err(e) => Err(e)
      case Ok(x) =>
        match DecodeEach(items[1..], decode)
        case Err(e) =>
          assert exists i :: 0 <= i < |items| && !decode(items[i]).Ok? by {
            var k :| 0 <= k < |items[1..]| && !decode(items[1..][k]).Ok?;
            assert items[1..][k] == items[k + 1];
          }
          Err(e)
        case Ok(xs) =>
          assert forall i :: 0 < i < |items| ==> items[i] == items[1..][i - 1];
          Ok([x] + xs)
  }
}
