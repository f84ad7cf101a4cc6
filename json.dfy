/** The part of `JSON.stringify` that the cache keys need: string literals with
    JSON escaping, integer literals, and flat objects whose members are written in
    insertion order and whose undefined members are dropped. */
module Json {

  function HexDigit(d: nat): char
    requires d < 16
  {
    "0123456789abcdef"[d]
  }

  function DecimalDigit(d: nat): char
    requires d < 10
  {
    "0123456789"[d]
  }

  /** The JSON escape of one character. */
  function EscapeChar(c: char): string {
    var code := c as int;
    if c == '"' then ['\\', '"']
    else if c == '\\' then ['\\', '\\']
    else if code == 8 then ['\\', 'b']
    else if code == 12 then ['\\', 'f']
    else if c == '\n' then ['\\', 'n']
    else if c == '\r' then ['\\', 'r']
    else if c == '\t' then ['\\', 't']
    else if code < 0x20 then ['\\', 'u', '0', '0', HexDigit(code / 16), HexDigit(code % 16)]
    else [c]
  }

  function Escape(s: string): string
    decreases |s|
  {
    if s == [] then "" else EscapeChar(s[0]) + Escape(s[1..])
  }

  /** A JSON string literal. */
  function Quote(s: string): string {
    "\"" + Escape(s) + "\""
  }

  function NatText(n: nat): string
    decreases n
  {
    if n < 10 then [DecimalDigit(n)] else NatText(n / 10) + [DecimalDigit(n % 10)]
  }

  /** A JSON number literal for an integer. */
  function IntText(i: int): string {
    if i < 0 then "-" + NatText(-i) else NatText(i)
  }

  /** One `"key":value` member, `value` already rendered. */
  function Member(key: string, value: string): string {
    Quote(key) + ":" + value
  }

  function JoinMembers(members: seq<string>): string
    decreases |members|
  {
    if members == [] then ""
    else if |members| == 1 then members[0]
    else members[0] + "," + JoinMembers(members[1..])
  }

  /** A JSON object with the given members, in order. */
  function Object(members: seq<string>): (o: string)
    ensures |o| >= 2 && o[0] == '{' && o[|o| - 1] == '}'
  {
    "{" + JoinMembers(members) + "}"
  }
}
