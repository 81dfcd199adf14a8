/** Values shared by every part of the marketplace model. */
module Common {

  datatype Option<T> = None | Some(value: T)

  /** The HTTP error responses sent by the routes and the middleware. */
  datatype Code =
    | BadRequest    // 400
    | Unauthorized  // 401
    | Forbidden     // 403
    | NotFound      // 404
    | ServerError   // 500

  /** The answer of a route that returns a value (a new row id, a page of rows). */
  datatype Result<T> = Ok(value: T) | Err(code: Code)

  /** The answer of a route whose success carries no value of interest. */
  datatype Outcome = Done | Failed(code: Code)

  /** A reading of the server clock (`new Date()`); the model only stores and orders it. */
  datatype Time = Time(ticks: int)

  type UserId = int
  type ProjectId = int
  type BidId = int

  /** A request-body string counts as supplied when it is present and not
      empty: JavaScript treats `undefined` and `""` alike as false. */
  predicate GivenText(s: Option<string>) {
    s.Some? && s.value != ""
  }

  /** The characters JavaScript's `\s` matches. */
  predicate IsJsSpace(c: char) {
    || c == ' ' || c == '\t' || c == '\n' || c == '\r' || c == '\U{000B}' || c == '\U{000C}'
    || c == '\U{00A0}' || c == '\U{1680}' || ('\U{2000}' <= c <= '\U{200A}')
    || c == '\U{2028}' || c == '\U{2029}' || c == '\U{202F}' || c == '\U{205F}'
    || c == '\U{3000}' || c == '\U{FEFF}'
  }

  /** The `notEmpty` column validator: the text has a character that is not
      whitespace. */
  predicate NotBlank(s: string) {
    exists i | 0 <= i < |s| :: !IsJsSpace(s[i])
  }

  /** A request-body number counts as supplied when it is present and not 0
      (a JSON `0` is false in JavaScript). */
  predicate GivenInt(n: Option<int>) {
    n.Some? && n.value != 0
  }
}
