/** Values shared by every controller: optional request fields and JavaScript truthiness. */
module Common {

  /** HTTP status codes the controllers answer with. */
  const Ok := 200
  const Created := 201
  const BadRequest := 400
  const NotFound := 404
  const ServerError := 500

  /** A request field that may be absent (`undefined` or `null` in the request body). */
  datatype Option<+T> = None | Some(value: T)

  /** JavaScript truthiness of an optional string: absent and "" are both falsy.
      Mongoose's `required` validator on a String path rejects exactly the same values. */
  predicate Present(o: Option<string>)
  {
    o.Some? && o.value != ""
  }

  /** The string a field carries into a document; a falsy field becomes "" so that
      schema validation rejects it as a missing required value. */
  function Text(o: Option<string>): (s: string)
    ensures s != "" <==> Present(o)
    ensures Present(o) ==> s == o.value
  {
    if o.Some? then o.value else ""
  }

  /** What the blob store answers to a successful upload: `secure_url` and `public_id`. */
  datatype Upload = Upload(secureUrl: string, publicId: string)
}
