/** The shape of an RTK Query request description (`{url, method, body}`) and the
    cache tags the endpoints provide and invalidate. The base slice itself
    (base URL, auth header) is not part of this model. */
module ApiSlice {
  import opened JsValue

  datatype Verb = GET | POST | PUT | DELETE

  /** One `formData.append(name, value)` call. */
  datatype FormPart = FormPart(name: string, value: Value)

  datatype Body =
    | NoBody                      // the query object has no `body` property
    | Json(value: Value)          // `body: <object>` (possibly undefined)
    | Form(parts: seq<FormPart>)  // `body: formData`, parts in append order

  datatype Query = Query(url: string, verb: Verb, body: Body)

  datatype Tag = Chats | Messages

  /** The names of the parts of a form body, in order. */
  function PartNames(parts: seq<FormPart>): (r: seq<string>)
    ensures |r| == |parts|
    ensures forall i :: 0 <= i < |parts| ==> r[i] == parts[i].name
  {
    if parts == [] then [] else [parts[0].name] + PartNames(parts[1..])
  }
}
