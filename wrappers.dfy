/** Small value types shared by every module: optional values, the outcome of a
    network request, JavaScript's `||` on strings, and the case folding of a
    case-insensitive match. */
module Wrappers {

  datatype Option<+T> = None | Some(value: T)

  /** What one `fetch` round trip produced, as the handlers see it.
      - Ok: the response was ok and its body decoded to `value`.
      - Refused: the server answered with a non-ok status; `message` is the
        body's `message` field, "" when the body has none.
      - Failed: the request or the body decoding threw; `message` is the
        thrown error's message. */
  datatype Outcome<+T> = Ok(value: T) | Refused(message: string) | Failed(message: string)

  /** `s || fallback` for strings: the empty string is falsy. */
  function Or(s: string, fallback: string): (r: string)
    ensures s != "" ==> r == s
    ensures s == "" ==> r == fallback
  {
    if s == "" then fallback else s
  }

  /** Case folding of a case-insensitive regular expression without the `u`
      flag, as used both by the export's header pattern and by the router:
      only ASCII letters fold onto ASCII letters. */
  function Fold(c: char): char
  {
    if 'A' <= c <= 'Z' then (c as int + 32) as char else c
  }
}
