/** The HTTP answers of the controllers: a status and a text or key-value body. */
module Web {
  import opened JavaLang

  datatype Body = Text(text: string) | Fields(fields: map<string, NString>)

  datatype Response = Response(status: int, body: Body)

  const OK: int := 200
  const BAD_REQUEST: int := 400
  const INTERNAL_SERVER_ERROR: int := 500
}
