/**
 * Inbound request headers.
 *
 * Headers arrive as a list of name/value pairs in wire order. Header names are
 * case-insensitive (section 5.1 of RFC 9110), so a lookup compares the
 * lower-cased name; a name that occurs more than once yields its first value.
 */
module Headers {
  import opened Wrappers

  type Header = (string, string)

  const USER_AGENT := "user-agent"

  function LowerChar(c: char): char
  {
    if 'A' <= c <= 'Z' then (c as int + 32) as char else c
  }

  function Lower(s: string): string
  {
    seq(|s|, i requires 0 <= i < |s| => LowerChar(s[i]))
  }

  /** Whether header `h` is called `name`, a lower-case header name. */
  predicate Named(h: Header, name: string)
  {
    Lower(h.0) == name
  }

  /** The value of the first header called `name`, if there is one. */
  function Find(headers: seq<Header>, name: string): (r: Option<string>)
    ensures r.None? <==> forall i :: 0 <= i < |headers| ==> !Named(headers[i], name)
    ensures r.Some? ==> exists i :: 0 <= i < |headers| && Named(headers[i], name) && headers[i].1 == r.value
                                    && forall j :: 0 <= j < i ==> !Named(headers[j], name)
    decreases |headers|
  {
    if |headers| == 0 then None
    else if Named(headers[0], name) then Some(headers[0].1)
    else
      var rest := Find(headers[1..], name);
      assert forall i :: 1 <= i < |headers| ==> headers[i] == headers[1..][i - 1];
      rest
  }

  /** Characters a header value may hold to be read as text: visible ASCII and tab. */
  predicate VisibleAscii(s: string)
  {
    forall i :: 0 <= i < |s| ==> s[i] == '\t' || (' ' <= s[i] <= '~')
  }
}
