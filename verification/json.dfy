/**
 The JSON text the chat shows when a message is switched to its JSON view:
 `JSON.stringify({role, content}, null, 2)`, written out with the string
 escaping JSON.stringify applies. `Unescape` reads the escapes back and shows
 that the view loses no character of the text it renders.
 */
module Json {
  import opened Types

  /** The lowercase hexadecimal digit for `n`, which reads back as `n`. */
  function HexDigit(n: nat): (c: char)
    requires n < 16
    ensures IsHexDigit(c) && HexValue(c) == n
  {
    "0123456789abcdef"[n]
  }

  /** The escape JSON.stringify writes for one character of a string: no raw control character is left. */
  function EscapeChar(c: char): (r: string)
    ensures 1 <= |r| <= 6
    ensures forall i :: 0 <= i < |r| ==> r[i] as int >= 0x20
  {
    if c == '"' then "\\\""
    else if c == '\\' then "\\\\"
    else if c == '\U{8}' then "\\b"
    else if c == '\U{C}' then "\\f"
    else if c == '\n' then "\\n"
    else if c == '\r' then "\\r"
    else if c == '\t' then "\\t"
    else if (c as int) < 0x20 then "\\u00" + [HexDigit(c as int / 16), HexDigit(c as int % 16)]
    else [c]
  }

  /**
   The escaped body of a JSON string: at least one and at most six
   characters per character of `s`, and no raw control character, as JSON
   requires of a string literal.
   */
  function Escape(s: string): (r: string)
    ensures |s| <= |r| <= 6 * |s|
    ensures forall i :: 0 <= i < |r| ==> r[i] as int >= 0x20
  {
    if s == [] then []
    else
      var head, tail := EscapeChar(s[0]), Escape(s[1..]);
      assert forall i :: |head| <= i < |head + tail| ==> (head + tail)[i] == tail[i - |head|];
      head + tail
  }

  /** A JSON string literal. */
  function Quote(s: string): string {
    "\"" + Escape(s) + "\""
  }

  function RoleName(role: Role): string {
    match role
    case User => "user"
    case Assistant => "assistant"
  }

  /** The opening brace and the `role` line of a JSON view. */
  function RoleHeader(role: Role): string {
    "{\n  \"role\": " + Quote(RoleName(role))
  }

  /** What a view with a `content` key shows before the escaped content. */
  function ContentHead(role: Role): string {
    RoleHeader(role) + ",\n  \"content\": \""
  }

  /**
   `JSON.stringify({ role, content }, null, 2)`: two-space indentation, and
   the `content` key omitted when its value is undefined. A present content
   sits escaped between `ContentHead` and the closing quote, line feed and
   brace, and reads back exactly.
   */
  function RoleContentView(role: Role, content: Option<string>): (r: string)
    ensures content.Some? ==>
      && |ContentHead(role)| + 3 <= |r|
      && r[..|ContentHead(role)|] == ContentHead(role)
      && r[|r| - 3..] == "\"\n}"
      && Unescape(r[|ContentHead(role)|..|r| - 3]) == content.value
    ensures content.None? ==> r == RoleHeader(role) + "\n}"
  {
    match content
    case Some(c) =>
      ReadBack(ContentHead(role), c);
      ContentHead(role) + Escape(c) + "\"\n}"
    case None => RoleHeader(role) + "\n}"
  }

  /** The escaped text between any head and the closing quote, line feed and brace reads back. */
  lemma ReadBack(head: string, c: string)
    ensures var r := head + Escape(c) + "\"\n}";
      && |head| + 3 <= |r| && r[..|head|] == head && r[|r| - 3..] == "\"\n}"
      && Unescape(r[|head|..|r| - 3]) == c
  {
    var r := head + Escape(c) + "\"\n}";
    assert r[|head|..|r| - 3] == Escape(c);
    UnescapeRoundTrip(c);
  }

  predicate IsHexDigit(c: char) {
    ('0' <= c <= '9') || ('a' <= c <= 'f')
  }

  function HexValue(c: char): nat
    requires IsHexDigit(c)
  {
    if '0' <= c <= '9' then c as int - '0' as int else c as int - 'a' as int + 10
  }

  /** The character a two-character escape `\x` stands for. */
  function ShortEscape(c: char): char {
    if c == 'b' then '\U{8}'
    else if c == 'f' then '\U{C}'
    else if c == 'n' then '\n'
    else if c == 'r' then '\r'
    else if c == 't' then '\t'
    else c
  }

  /** Reads back the escapes `Escape` writes. */
  function Unescape(s: string): string
    decreases |s|
  {
    if s == [] then []
    else if s[0] == '\\' && |s| >= 6 && s[1] == 'u' && s[2] == '0' && s[3] == '0'
            && IsHexDigit(s[4]) && IsHexDigit(s[5]) then
      [(16 * HexValue(s[4]) + HexValue(s[5])) as char] + Unescape(s[6..])
    else if s[0] == '\\' && |s| >= 2 then
      [ShortEscape(s[1])] + Unescape(s[2..])
    else
      [s[0]] + Unescape(s[1..])
  }

  /** A control character without a short escape is written `\u00XY` and read back. */
  lemma UnescapeControl(c: char, rest: string)
    requires (c as int) < 0x20 && c !in ['\U{8}', '\U{C}', '\n', '\r', '\t']
    ensures Unescape(EscapeChar(c) + rest) == [c] + Unescape(rest)
  {
    var s := EscapeChar(c) + rest;
    assert s[6..] == rest;
  }

  /** A quote, a backslash or a control character with a short escape is written `\x` and read back. */
  lemma UnescapeShort(c: char, rest: string)
    requires c in ['"', '\\', '\U{8}', '\U{C}', '\n', '\r', '\t']
    ensures Unescape(EscapeChar(c) + rest) == [c] + Unescape(rest)
  {
    var e := EscapeChar(c);
    var s := e + rest;
    assert |e| == 2 && e[0] == '\\' && e[1] != 'u' && ShortEscape(e[1]) == c;
    assert s[0] == e[0] && s[1] == e[1];
    assert s[2..] == rest;
  }

  /** Any other character is written as itself. */
  lemma UnescapePlain(c: char, rest: string)
    requires c !in ['"', '\\'] && (c as int) >= 0x20
    ensures Unescape(EscapeChar(c) + rest) == [c] + Unescape(rest)
  {
    var s := EscapeChar(c) + rest;
    assert s[1..] == rest;
  }

  /** Decoding one escaped character and then the rest. */
  lemma UnescapeChar(c: char, rest: string)
    ensures Unescape(EscapeChar(c) + rest) == [c] + Unescape(rest)
  {
    if c in ['"', '\\', '\U{8}', '\U{C}', '\n', '\r', '\t'] {
      UnescapeShort(c, rest);
    } else if (c as int) < 0x20 {
      UnescapeControl(c, rest);
    } else {
      UnescapePlain(c, rest);
    }
  }

  /** The JSON escaping loses nothing: decoding it gives back the text. */
  lemma {:induction false} UnescapeRoundTrip(s: string)
    ensures Unescape(Escape(s)) == s
  {
    if s != [] {
      UnescapeChar(s[0], Escape(s[1..]));
      UnescapeRoundTrip(s[1..]);
    }
  }
}
