/**
 * The parts of Express the core writes to: the response (status, JSON or text
 * body, cookies) and the `next` callback of a request pipeline.
 */
module Express {
  import opened Wrappers
  import opened Jwt
  import opened HttpErrors

  /** One entry of express-validator's `validationResult(req).array()`. */
  datatype FieldError = FieldError(path: string, msg: string)

  /** One entry of the global error envelope; `errorType` is sent under the JSON key `type`. */
  datatype ErrorEntry = ErrorEntry(errorType: string, message: string, path: string, location: string)

  datatype Body =
    | ValidationFailed(fieldErrors: seq<FieldError>)  // { errors: result.array() }
    | Created(id: nat)                           // { id: user.id }
    | ErrorEnvelope(errors: seq<ErrorEntry>)     // { errors: [ ... ] }
    | Text(text: string)                         // res.send(text)

  /** The cookie attributes of section 4.1.2 of RFC 6265 that the core sets. */
  datatype CookieOptions = CookieOptions(domain: string, sameSite: string, maxAge: nat, httpOnly: bool)

  datatype Cookie = Cookie(name: string, value: Token, options: CookieOptions)

  class Response {
    var statusCode: int
    var body: Option<Body>   // None until `json` or `send` has been called
    var cookies: seq<Cookie>

    constructor ()
      ensures statusCode == 200 && body == None && cookies == []
    {
      statusCode := 200;
      body := None;
      cookies := [];
    }

    /** `res.status(code)` */
    method Status(code: int)
      modifies this
      ensures statusCode == code && body == old(body) && cookies == old(cookies)
    {
      statusCode := code;
    }

    /** `res.json(b)` */
    method Json(b: Body)
      modifies this
      ensures body == Some(b) && statusCode == old(statusCode) && cookies == old(cookies)
    {
      body := Some(b);
    }

    /** `res.cookie(name, value, options)` */
    method SetCookie(name: string, value: Token, options: CookieOptions)
      modifies this
      ensures cookies == old(cookies) + [Cookie(name, value, options)]
      ensures statusCode == old(statusCode) && body == old(body)
    {
      cookies := cookies + [Cookie(name, value, options)];
    }
  }

  /** One call of `next`: `next()` passes the request on, `next(err)` forwards an error. */
  datatype NextCall = Continue | Forward(error: Error)

  /** The `next` callback, recording every call made to it. */
  class Next {
    var calls: seq<NextCall>

    constructor ()
      ensures calls == []
    {
      calls := [];
    }

    method Call(c: NextCall)
      modifies this
      ensures calls == old(calls) + [c]
    {
      calls := calls + [c];
    }
  }
}
