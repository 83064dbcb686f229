/** The browser facilities the navigation bar touches, modelled as plain values:
    `localStorage` as a map from key to string, the root element's `classList`
    as a set of class tokens, and `document.getElementById` as a partial map
    from id to element. */
module Browser {
  import opened Wrappers

  /** The exceptions `DOMTokenList.add` throws for a bad token
      (DOM Standard, section 7.1, "Interface DOMTokenList"). */
  datatype DomError = SyntaxError | InvalidCharacterError

  /** An element of the rendered page, identified by its `id` attribute. */
  datatype Element = Element(id: string)

  type Storage = map<string, string>

  /** ASCII whitespace as the Infra Standard defines it: TAB, LF, FF, CR, SPACE. */
  predicate IsAsciiWhitespace(c: char) {
    c == '\t' || c == '\n' || c == '\U{000C}' || c == '\r' || c == ' '
  }

  predicate HasWhitespace(s: string) {
    exists i :: 0 <= i < |s| && IsAsciiWhitespace(s[i])
  }

  /** A string `classList.add` accepts: non-empty and free of ASCII whitespace. */
  predicate IsToken(s: string) {
    s != "" && !HasWhitespace(s)
  }

  /** `classList.add(token)`: validates the token, then inserts it. */
  function ClassListAdd(classes: set<string>, token: string): (r: Result<set<string>, DomError>)
    ensures r.Success? <==> IsToken(token)
    ensures r.Success? ==> token in r.value && r.value - {token} == classes - {token}
    ensures token == "" ==> r == Failure(SyntaxError)
    ensures token != "" && HasWhitespace(token) ==> r == Failure(InvalidCharacterError)
  {
    if token == "" then Failure(SyntaxError)
    else if HasWhitespace(token) then Failure(InvalidCharacterError)
    else Success(classes + {token})
  }

  /** `localStorage.getItem(key)`: `null` for a missing key. */
  function GetItem(storage: Storage, key: string): (r: Option<string>)
    ensures r.Some? <==> key in storage
    ensures r.Some? ==> r.value == storage[key]
  {
    if key in storage then Some(storage[key]) else None
  }

  /** `document.getElementById(id)`. An element's ID is never the empty
      string, so looking up `""` finds nothing. */
  function GetElementById(elements: map<string, Element>, id: string): (r: Option<Element>)
    ensures r.Some? <==> id != "" && id in elements
    ensures r.Some? ==> r.value == elements[id]
  {
    if id != "" && id in elements then Some(elements[id]) else None
  }
}
