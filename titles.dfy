/** The display texts of the promise tracker: `getFunctionName`,
    `getBoxTitle` and `getTooltip`. `JSON.stringify` is modelled for the
    primitive values, strings escaped as it escapes them; for a plain object
    its texts are part of the value. */
module Titles {
  import opened Js
  import opened Interception

  /** `getFunctionName(fn)`: the function's name, or "" for anything that is
      not a function. */
  function FunctionName(fn: JsValue): (name: string)
    ensures !IsFunction(fn) ==> name == ""
  {
    if IsFunction(fn) then NameOf(fn) else ""
  }

  const BoxTitleMax := 22
  const TooltipMax := 400

  /** The shortening step every title branch ends with: an empty title or one
      longer than `maxLength` becomes its first `maxLength - 3` characters
      followed by "...". */
  function Shorten(title: string, maxLength: nat): (r: string)
    requires maxLength >= 3
    ensures title != "" && |title| <= maxLength ==> r == title
    ensures |title| > maxLength ==> r == title[..maxLength - 3] + "..." && |r| == maxLength
    ensures title == "" ==> r == "..."
    ensures r != "" && |r| <= maxLength
  {
    if title == "" then "..."
    else if |title| > maxLength then title[..maxLength - 3] + "..."
    else title
  }

  /** Shortening is idempotent: a shortened title is left as it is. */
  lemma ShortenIdempotent(title: string, maxLength: nat)
    requires maxLength >= 3
    ensures Shorten(Shorten(title, maxLength), maxLength) == Shorten(title, maxLength)
  {
  }

  /** A hexadecimal digit, lower case, as `JSON.stringify` writes it. */
  function HexDigit(n: nat): (d: char)
    requires n < 16
    ensures HexValue(d) == n
  {
    if n < 10 then ('0' as int + n) as char else ('a' as int + n - 10) as char
  }

  /** The value of a lower-case hexadecimal digit (0 for any other char). */
  function HexValue(d: char): nat
  {
    if '0' <= d <= '9' then d as int - '0' as int
    else if 'a' <= d <= 'f' then d as int - 'a' as int + 10
    else 0
  }

  /** The escape `JSON.stringify` writes for one character of a string:
      the two-character escapes for backspace, tab, line feed, form feed,
      carriage return, `"` and `\`; `\u00XX` for every other control
      character; the character itself otherwise. */
  function EscapeChar(c: char): (e: string)
    ensures 1 <= |e| <= 6
    ensures |e| == 1 <==> c >= ' ' && c != '"' && c != '\\'
    ensures |e| == 1 ==> e == [c]
    ensures |e| > 1 ==> e[0] == '\\'
  {
    if c == 8 as char then "\\b"
    else if c == '\t' then "\\t"
    else if c == '\n' then "\\n"
    else if c == 12 as char then "\\f"
    else if c == '\r' then "\\r"
    else if c == '"' then "\\\""
    else if c == '\\' then "\\\\"
    else if c < ' ' then ['\\', 'u', '0', '0', HexDigit(c as int / 16), HexDigit(c as int % 16)]
    else [c]
  }

  /** The characters of a string as `JSON.stringify` writes them between
      the quotes. */
  function JsonEscape(s: string): (e: string)
    ensures |e| >= |s|
    ensures (forall i :: 0 <= i < |s| ==> s[i] >= ' ' && s[i] != '"' && s[i] != '\\') ==> e == s
  {
    if s == [] then [] else EscapeChar(s[0]) + JsonEscape(s[1..])
  }

  /** `JSON.stringify` of a string: the escaped characters in double
      quotes. */
  function JsonQuote(s: string): (q: string)
    ensures |q| >= |s| + 2 && q[0] == '"' && q[|q| - 1] == '"'
  {
    "\"" + JsonEscape(s) + "\""
  }

  /** Reading an escaped string back, as `JSON.parse` reads the escapes
      `JsonEscape` writes. */
  function JsonUnescape(e: string): string
    decreases |e|
  {
    if e == [] then []
    else if e[0] != '\\' || |e| < 2 then [e[0]] + JsonUnescape(e[1..])
    else if e[1] == 'u' && |e| >= 6 then [(HexValue(e[4]) * 16 + HexValue(e[5])) as char] + JsonUnescape(e[6..])
    else
      var c := match e[1]
        case 'b' => 8 as char
        case 't' => '\t'
        case 'n' => '\n'
        case 'f' => 12 as char
        case 'r' => '\r'
        case _ => e[1];
      [c] + JsonUnescape(e[2..])
  }

  /** One escaped character reads back as itself, whatever follows. */
  lemma UnescapeChar(c: char, rest: string)
    ensures JsonUnescape(EscapeChar(c) + rest) == [c] + JsonUnescape(rest)
  {
    var e := EscapeChar(c) + rest;
    if |EscapeChar(c)| == 1 {
      assert e[1..] == rest;
    } else if c < ' ' && c != 8 as char && c != '\t' && c != '\n' && c != 12 as char && c != '\r' {
      assert e[6..] == rest;
      assert e[4] == HexDigit(c as int / 16) && e[5] == HexDigit(c as int % 16);
    } else {
      assert e[2..] == rest;
    }
  }

  /** The escaping `JSON.stringify` does loses nothing: reading it back
      gives the original string. */
  lemma {:induction false} UnescapeEscape(s: string)
    ensures JsonUnescape(JsonEscape(s)) == s
  {
    if s != [] {
      UnescapeChar(s[0], JsonEscape(s[1..]));
      UnescapeEscape(s[1..]);
    }
  }

  /** `JSON.stringify(o)` (indented by two spaces when `pretty`) appended to
      the constructor-name prefix, as the stringify branch builds it.
      `undefined` and functions stringify to `undefined`, which the template
      turns into the text "undefined"; `null` fails the branch and ends in the
      template text "null". A primitive has no indentation, so both forms
      agree on it. */
  function JsonTitle(o: JsValue, pretty: bool): string
  {
    match o
    case Undefined => "undefined"
    case Null => "null"
    case Bool(b) => if b then "true" else "false"
    case Num(n) => IntToString(n)
    case Str(s) => JsonQuote(s)
    case Obj(_, ctorName, kind) =>
      (match kind
       case Plain(json, prettyJson, _, _) =>
         (if ctorName != "" && ctorName != "Object" then ctorName + ": " else "") + (if pretty then prettyJson else json)
       case ArrayObj(_, json, prettyJson) =>
         (if ctorName != "" && ctorName != "Object" then ctorName + ": " else "") + (if pretty then prettyJson else json)
       case _ => "undefined")
    case Tracked(t) => JsonTitle(t, pretty)
    case Watched(_, _) => "undefined"
  }

  /** `o.toString()` for a function. */
  function FunctionSource(o: JsValue): string
  {
    match o
    case Obj(_, _, Function(_, _, source)) => source
    case Tracked(t) => FunctionSource(t)
    case _ => "(...args) => {...}"
  }

  /** `getBoxTitle(o)`: "<Promise>" for a promise, otherwise `name: message`
      for an error and the stringified value for anything else, shortened to
      22 characters. */
  function BoxTitle(o: JsValue): (title: string)
    ensures IsPromise(o) ==> title == "<Promise>"
    ensures title != "" && |title| <= BoxTitleMax
  {
    if IsPromise(o) then "<Promise>"
    else if o.Obj? && o.kind.ErrorObj? then Shorten(o.kind.name + ": " + o.kind.message, BoxTitleMax)
    else Shorten(JsonTitle(o, false), BoxTitleMax)
  }

  /** `getTooltip(o)`: like the box title but up to 400 characters, and a
      function shows its source text, even when it is also a promise. */
  function Tooltip(o: JsValue): (tip: string)
    ensures IsFunction(o) ==> tip == Shorten(FunctionSource(o), TooltipMax)
    ensures !IsFunction(o) && IsPromise(o) ==> tip == "<Promise>"
    ensures tip != "" && |tip| <= TooltipMax
  {
    if IsFunction(o) then Shorten(FunctionSource(o), TooltipMax)
    else if IsPromise(o) then "<Promise>"
    else if o.Obj? && o.kind.ErrorObj? then Shorten(o.kind.name + ": " + o.kind.message, TooltipMax)
    else Shorten(JsonTitle(o, true), TooltipMax)
  }

  /** A string whose `JSON.stringify` text fits is shown as that text in
      full, and a longer one is cut to exactly the maximum length, ending in
      "...". A string without quotes, backslashes or control characters is
      its own escaped text. */
  lemma BoxTitleOfString(s: string)
    ensures |JsonEscape(s)| + 2 <= BoxTitleMax ==> BoxTitle(Str(s)) == "\"" + JsonEscape(s) + "\""
    ensures |JsonEscape(s)| + 2 > BoxTitleMax ==>
      |BoxTitle(Str(s))| == BoxTitleMax && BoxTitle(Str(s))[BoxTitleMax - 3..] == "..."
    ensures (forall i :: 0 <= i < |s| ==> s[i] >= ' ' && s[i] != '"' && s[i] != '\\') && |s| + 2 <= BoxTitleMax ==>
      BoxTitle(Str(s)) == "\"" + s + "\""
  {
  }
}
