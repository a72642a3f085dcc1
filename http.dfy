/** Responses of the edge functions: a status code and a JSON body. */
module Http {
  import opened Json

  datatype Response = Response(status: int, body: Json)

  /** A value thrown inside a handler: its `message`, and whether it is an `Error` instance. Database
      client errors are plain objects; `new Error(...)` and engine TypeErrors are instances. */
  datatype Thrown = Thrown(message: string, isErrorInstance: bool)

  /** A TypeError raised by the engine (reading a property of null or undefined). Its text is
      engine-specific and is not modelled. */
  const EngineTypeError := Thrown("TypeError", true)

  /** The SyntaxError `req.json()` rejects with when the body is not JSON. Its text is engine-specific
      and is not modelled. */
  const BodyParseError := Thrown("SyntaxError", true)

  /** Whether an HTTP status counts as `response.ok`. */
  predicate OkStatus(status: int) {
    200 <= status < 300
  }

  /** The `error` text of a catch block written `error instanceof Error ? error.message : 'Erro desconhecido'`. */
  function CaughtMessage(e: Thrown): (m: string)
    ensures e.isErrorInstance ==> m == e.message
    ensures !e.isErrorInstance ==> m == "Erro desconhecido"
  {
    if e.isErrorInstance then e.message else "Erro desconhecido"
  }

  /** A 200 response whose body is `{message: text}`. */
  function MessageResponse(text: string): Response {
    Response(200, Obj1("message", JStr(text)))
  }

  /** A response whose body is `{error: text}`. */
  function ErrorResponse(status: int, text: string): Response {
    Response(status, Obj1("error", JStr(text)))
  }

  /** The 500 response of a catch block that renders the thrown value with CaughtMessage. */
  function Caught(e: Thrown): (r: Response)
    ensures r.status == 500
  {
    ErrorResponse(500, CaughtMessage(e))
  }
}
