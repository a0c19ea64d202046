/** The request bodies the dashboard builds. A body is a JavaScript object
    literal; the object spread `{...a, ...b}` copies the own properties of `a`
    and then those of `b`, so it is the union of two maps in which `b` wins. */
module Payloads {
  import opened Foods

  datatype JsValue = JsNum(num: int) | JsStr(str: string) | JsBool(flag: bool)

  /** A plain object: its own enumerable properties (key order is not modelled). */
  type JsObject = map<string, JsValue>

  /** `{...a, ...b}`. */
  function Spread(a: JsObject, b: JsObject): (r: JsObject)
    ensures r.Keys == a.Keys + b.Keys
    ensures forall k :: k in b ==> r[k] == b[k]
    ensures forall k :: k in a && k !in b ==> r[k] == a[k]
  {
    a + b
  }

  /** The object a form submits: exactly its four named inputs. */
  function InputObject(input: FoodInput): (o: JsObject)
    ensures o.Keys == {"name", "image", "price", "description"}
  {
    map["name" := JsStr(input.name), "image" := JsStr(input.image),
        "price" := JsStr(input.price), "description" := JsStr(input.description)]
  }

  /** The object the service sends and receives for a Food. */
  function FoodObject(f: Food): (o: JsObject)
    ensures o.Keys == {"id", "name", "image", "price", "description", "available"}
  {
    map["id" := JsNum(f.id), "name" := JsStr(f.name), "image" := JsStr(f.image),
        "price" := JsStr(f.price), "description" := JsStr(f.description),
        "available" := JsBool(f.available)]
  }

  /** Every property of `part` is a property of `o`, with the same value. */
  ghost predicate Extends(o: JsObject, part: JsObject) {
    forall k :: k in part ==> k in o && o[k] == part[k]
  }

  /** Reads a Food back from an object, failing on a missing key or a value of
      the wrong kind. It succeeds exactly when the object carries some Food's
      properties, and then yields that Food. */
  function FoodOf(o: JsObject): (r: Option<Food>)
    ensures r.Some? ==> Extends(o, FoodObject(r.value))
    ensures forall f :: Extends(o, FoodObject(f)) ==> r == Some(f)
  {
    if "id" in o && o["id"].JsNum? && "name" in o && o["name"].JsStr?
       && "image" in o && o["image"].JsStr? && "price" in o && o["price"].JsStr?
       && "description" in o && o["description"].JsStr?
       && "available" in o && o["available"].JsBool?
    then Some(Food(o["id"].num, o["name"].str, o["image"].str, o["price"].str,
                   o["description"].str, o["available"].flag))
    else None
  }

  /** Encoding a Food as an object loses nothing. */
  lemma FoodObjectRoundTrip(f: Food)
    ensures FoodOf(FoodObject(f)) == Some(f)
  {
  }

  /** Two Foods with the same object are the same Food. */
  lemma FoodObjectInjective(f: Food, g: Food)
    requires FoodObject(f) == FoodObject(g)
    ensures f == g
  {
    FoodObjectRoundTrip(f);
    FoodObjectRoundTrip(g);
  }

  /** `{...form, available: true}`, for whatever object the form submits. */
  function WithAvailable(form: JsObject): (body: JsObject)
    ensures body.Keys == form.Keys + {"available"}
    ensures body["available"] == JsBool(true)
    ensures forall k :: k in form && k != "available" ==> body[k] == form[k]
  {
    Spread(form, map["available" := JsBool(true)])
  }

  /** The body of the create request: the form's four fields unchanged,
      `available: true`, and no `id`. */
  function CreateBody(input: FoodInput): (body: JsObject)
    ensures body.Keys == {"name", "image", "price", "description", "available"}
    ensures body["available"] == JsBool(true)
    ensures forall k :: k in InputObject(input) ==> body[k] == InputObject(input)[k]
  {
    WithAvailable(InputObject(input))
  }

  /** The update request: the id it targets and the body it sends. */
  datatype UpdateRequest = UpdateRequest(target: Id, body: JsObject)

  /** The update request built from the food being edited and the form:
      it targets the edited food's id, and its body is that food with every
      form field overriding the old value and `id` and `available` kept. */
  function UpdateRequestFor(editing: Food, input: FoodInput): (req: UpdateRequest)
    ensures req.target == editing.id
    ensures FoodOf(req.body) ==
      Some(Food(editing.id, input.name, input.image, input.price, input.description, editing.available))
    ensures req.body.Keys == FoodObject(editing).Keys
  {
    var merged := Food(editing.id, input.name, input.image, input.price, input.description,
                       editing.available);
    var body := Spread(FoodObject(editing), InputObject(input));
    assert body == FoodObject(merged);
    FoodObjectRoundTrip(merged);
    UpdateRequest(editing.id, body)
  }
}
