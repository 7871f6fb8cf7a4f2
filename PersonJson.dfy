/**
  The `toJSON` transform of the Person schema. The document-mapping library
  first turns a document into a plain object (`_id`, `name`, `number`,
  `__v`), then hands that object to the transform, which edits it in place:
  it sets `id` to the string form of `_id` and deletes `_id` and `__v`.
*/
module PersonJson {
  import opened Wrappers
  import opened ObjectIds
  import opened PersonSchema

  /** The property values a person's plain object can hold. */
  datatype JsValue =
    | JsString(s: string)
    | JsNumber(n: int)
    | JsObjectId(id: ObjectId)

  function DigitChar(d: nat): char
    requires d < 10
  {
    "0123456789"[d]
  }

  function NatDecimal(n: nat): string {
    if n < 10 then [DigitChar(n)] else NatDecimal(n / 10) + [DigitChar(n % 10)]
  }

  /**
    `value.toString()` for each kind of value. The transform reads `_id`
    from any plain object; for a stored person it is always an ObjectId
    (see `DocumentObject`), and the other cases give the string form of a
    property that holds a string or a number instead.
  */
  function ToStr(v: JsValue): string {
    match v
    case JsString(s) => s
    case JsNumber(n) => if n < 0 then "-" + NatDecimal(-n) else NatDecimal(n)
    case JsObjectId(id) => IdString(id)
  }

  /** A plain JavaScript object, a dictionary the transform rewrites in place. */
  class PlainObject {
    var props: map<string, JsValue>

    constructor (props: map<string, JsValue>)
      ensures this.props == props
    {
      this.props := props;
    }
  }

  /**
    What the transform leaves in the object; None when `_id` is absent, where
    `returnedObject._id.toString()` throws before anything is changed.
  */
  function Transformed(props: map<string, JsValue>): (r: Option<map<string, JsValue>>)
    ensures r.Some? <==> "_id" in props
    ensures r.Some? ==> "id" in r.value && r.value["id"] == JsString(ToStr(props["_id"]))
    ensures r.Some? ==> "_id" !in r.value && "__v" !in r.value
    ensures r.Some? ==> r.value.Keys == props.Keys - {"_id", "__v"} + {"id"}
    ensures r.Some? ==> forall k :: k in props && k != "id" && k != "_id" && k != "__v" ==> k in r.value && r.value[k] == props[k]
  {
    if "_id" !in props then None
    else Some(props["id" := JsString(ToStr(props["_id"]))] - {"_id", "__v"})
  }

  /** The transform callback: assign `id`, delete `_id`, delete `__v`. */
  method Transform(returnedObject: PlainObject) returns (ok: bool)
    modifies returnedObject
    ensures ok <==> "_id" in old(returnedObject.props)
    ensures ok ==> returnedObject.props == Transformed(old(returnedObject.props)).value
    ensures !ok ==> returnedObject.props == old(returnedObject.props)
  {
    if "_id" !in returnedObject.props {
      return false;
    }
    returnedObject.props := returnedObject.props["id" := JsString(ToStr(returnedObject.props["_id"]))];
    returnedObject.props := returnedObject.props - {"_id"};
    returnedObject.props := returnedObject.props - {"__v"};
    ok := true;
  }

  /** The plain object the library builds from a stored document. */
  function DocumentObject(d: Document): map<string, JsValue> {
    map["_id" := JsObjectId(d.id), "name" := JsString(d.name), "number" := JsString(d.number), "__v" := JsNumber(d.version)]
  }

  /**
    The JSON of a stored person has exactly `id`, `name` and `number`: `id`
    is the 24-digit string of `_id`, which reads back to `_id`, and the two
    fields are unchanged.
  */
  lemma PersonJsonShape(d: Document)
    ensures Transformed(DocumentObject(d)).Some?
    ensures var json := Transformed(DocumentObject(d)).value;
      json == map["id" := JsString(IdString(d.id)), "name" := JsString(d.name), "number" := JsString(d.number)]
      && ParseHex(json["id"].s) == Some(d.id as nat)
  {
    var obj := DocumentObject(d);
    var json := Transformed(obj).value;
    var expected := map["id" := JsString(IdString(d.id)), "name" := JsString(d.name), "number" := JsString(d.number)];
    assert json.Keys == expected.Keys;
    forall k | k in json ensures json[k] == expected[k] {
    }
    IdStringRoundTrip(d.id);
  }
}
