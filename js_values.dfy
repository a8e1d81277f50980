/** Request values as an Express handler sees them, and the JavaScript
    semantics the image routes rely on: truthiness of body fields, query
    parameters and the logged-in username, and the length of a JS string. */
module JsValues {

  datatype Option<+T> = None | Some(value: T)

  /** A field of a parsed JSON body or of the query string.
      `NonString` stands for every other JavaScript value (number, boolean,
      null, object, array). In a query string (Express's parser) it can only
      be an array or an object, and those are truthy. */
  datatype JsValue = Undefined | Str(s: string) | NonString

  /** The file record the upload middleware attaches to the request
      (`req.file`); only the server-assigned file name is used. */
  datatype UploadedFile = UploadedFile(filename: string)

  /** `!v || typeof v !== 'string'` is false exactly when `v` is a non-empty
      string: the empty string is falsy, and every other value fails the
      type test. Returns the string when the guard lets it through. */
  function RequiredString(v: JsValue): (r: Option<string>)
    ensures r.Some? <==> v.Str? && v.s != ""
    ensures r.Some? ==> v == Str(r.value) && |r.value| > 0
  {
    if v.Str? && v.s != "" then Some(v.s) else None
  }

  /** `!q` for a query parameter: undefined and "" are falsy; a non-empty
      string, an array or an object is truthy. */
  predicate QueryPresent(q: JsValue)
    ensures QueryPresent(q) <==> q != Undefined && q != Str("")
  {
    match q
    case Undefined => false
    case Str(s) => s != ""
    case NonString => true
  }

  /** `req.user?.username` after the `!loggedInUsername` test: a missing user
      and an empty username both count as "not logged in". */
  function Caller(user: Option<string>): (r: Option<string>)
    ensures r.Some? <==> user.Some? && user.value != ""
    ensures r.Some? ==> r.value == user.value && r.value != ""
  {
    if user.Some? && user.value != "" then user else None
  }

  /** Whether a character is encoded as one UTF-16 code unit (the Basic
      Multilingual Plane) or as a surrogate pair. */
  predicate InBmp(c: char)
  {
    c as int < 0x1_0000
  }

  /** JavaScript's `string.length`: the number of UTF-16 code units, where a
      character outside the Basic Multilingual Plane counts twice. */
  function Utf16Length(s: string): (n: nat)
    ensures |s| <= n <= 2 * |s|
    ensures (forall i :: 0 <= i < |s| ==> InBmp(s[i])) ==> n == |s|
  {
    if s == [] then 0
    else (if InBmp(s[0]) then 1 else 2) + Utf16Length(s[1..])
  }
}
