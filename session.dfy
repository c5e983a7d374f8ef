/** The session record and the text form it takes in browser storage.

    AuthContext writes the record with JSON.stringify and reads it back with
    JSON.parse. Encode writes exactly what JSON.stringify writes for this flat
    record (keys in declaration order, no whitespace, strings escaped as the
    JSON standard's stringify does); Decode accepts exactly that layout. */
module Session {
  import opened Shared
  import opened Text

  datatype User = User(
    id: string,
    name: string,
    email: string,
    role: string,
    firm: string,
    avatar: Option<string>,
    createdAt: string)

  // ---------------------------------------------------------------------------
  // Writing
  // ---------------------------------------------------------------------------

  /** Lower-case hexadecimal digit, as JSON.stringify writes in \u escapes. */
  function HexDigit(d: nat): char
    requires d < 16
  {
    if d < 10 then ('0' as int + d) as char else ('a' as int + d - 10) as char
  }

  /** The JSON text of one character inside a string literal. */
  function EscapeChar(c: char): string
  {
    if c == '"' then "\\\""
    else if c == '\\' then "\\\\"
    else if c as int == 0x08 then "\\b"
    else if c as int == 0x09 then "\\t"
    else if c as int == 0x0A then "\\n"
    else if c as int == 0x0C then "\\f"
    else if c as int == 0x0D then "\\r"
    else if c as int < 0x20 then "\\u00" + [HexDigit(c as int / 16), HexDigit(c as int % 16)]
    else [c]
  }

  /** The pieces of text, one after another. */
  function Concat(parts: seq<string>): string
  {
    if parts == [] then "" else parts[0] + Concat(parts[1..])
  }

  /** The JSON text of a string literal's contents: every character
      escaped in turn. */
  function Escape(s: string): string
  {
    Concat(seq(|s|, i requires 0 <= i < |s| => EscapeChar(s[i])))
  }

  /** Escaping works character by character from the front. */
  lemma EscapeCons(c: char, x: string)
    ensures Escape([c] + x) == EscapeChar(c) + Escape(x)
  {
    var s := [c] + x;
    var parts := seq(|s|, i requires 0 <= i < |s| => EscapeChar(s[i]));
    assert parts[1..] == seq(|x|, i requires 0 <= i < |x| => EscapeChar(x[i]));
  }

  function Quote(s: string): string
  {
    "\"" + Escape(s) + "\""
  }

  /** JSON.stringify of a session record. */
  function Encode(u: User): string
  {
    "{\"id\":" + (Quote(u.id) +
    (",\"name\":" + (Quote(u.name) +
    (",\"email\":" + (Quote(u.email) +
    (",\"role\":" + (Quote(u.role) +
    (",\"firm\":" + (Quote(u.firm) +
    (",\"avatar\":" + (AvatarJson(u.avatar) +
    (",\"createdAt\":" + (Quote(u.createdAt) + "}")))))))))))))
  }

  /** An absent avatar is written as null. */
  function AvatarJson(a: Option<string>): string
  {
    match a
    case None => "null"
    case Some(url) => Quote(url)
  }

  // ---------------------------------------------------------------------------
  // Reading
  // ---------------------------------------------------------------------------

  /** A value read from the front of a text, and the text after it. */
  datatype Parsed<T> = Parsed(value: T, rest: string)

  function HexValue(c: char): (r: Option<nat>)
    ensures r.Some? ==> r.value < 16
  {
    if '0' <= c <= '9' then Some(c as int - '0' as int)
    else if 'a' <= c <= 'f' then Some(c as int - 'a' as int + 10)
    else if 'A' <= c <= 'F' then Some(c as int - 'A' as int + 10)
    else None
  }

  /** The character a one-letter escape stands for. */
  function SimpleEscape(e: char): Option<char>
  {
    if e == '"' || e == '\\' || e == '/' then Some(e)
    else if e == 'b' then Some(0x08 as char)
    else if e == 't' then Some(0x09 as char)
    else if e == 'n' then Some(0x0A as char)
    else if e == 'f' then Some(0x0C as char)
    else if e == 'r' then Some(0x0D as char)
    else None
  }

  /** The character a \uXXXX escape stands for; surrogate code units are
      outside the model. */
  function UnicodeEscape(h: string): Option<char>
    requires |h| == 4
  {
    var d0 :- HexValue(h[0]);
    var d1 :- HexValue(h[1]);
    var d2 :- HexValue(h[2]);
    var d3 :- HexValue(h[3]);
    var code := ((d0 * 16 + d1) * 16 + d2) * 16 + d3;
    assert code < 0x10000;
    if 0xD800 <= code < 0xE000 then None else Some(code as char)
  }

  function Prepend(c: char, p: Option<Parsed<string>>): Option<Parsed<string>>
  {
    match p
    case None => None
    case Some(Parsed(v, rest)) => Some(Parsed([c] + v, rest))
  }

  /** Reads the body of a JSON string literal up to its closing quote. */
  function ParseStringBody(s: string): Option<Parsed<string>>
    decreases |s|
  {
    if s == [] then None
    else if s[0] == '"' then Some(Parsed("", s[1..]))
    else if s[0] == '\\' then
      if |s| < 2 then None
      else if s[1] == 'u' then
        if |s| < 6 then None
        else
          match UnicodeEscape(s[2..6])
          case None => None
          case Some(c) => Prepend(c, ParseStringBody(s[6..]))
      else
        match SimpleEscape(s[1])
        case None => None
        case Some(c) => Prepend(c, ParseStringBody(s[2..]))
    else if s[0] as int < 0x20 then None
    else Prepend(s[0], ParseStringBody(s[1..]))
  }

  function ParseString(s: string): Option<Parsed<string>>
  {
    if s != [] && s[0] == '"' then ParseStringBody(s[1..]) else None
  }

  function ParseLiteral(lit: string, s: string): Option<string>
  {
    if StartsWith(s, lit) then Some(s[|lit|..]) else None
  }

  /** A key (with its punctuation) followed by a string value. */
  function ParseField(key: string, s: string): Option<Parsed<string>>
  {
    var after :- ParseLiteral(key, s);
    ParseString(after)
  }

  /** The avatar key followed by null or a string value. */
  function ParseAvatarField(key: string, s: string): Option<Parsed<Option<string>>>
  {
    var after :- ParseLiteral(key, s);
    if StartsWith(after, "null") then Some(Parsed(None, after[4..]))
    else
      var p :- ParseString(after);
      Some(Parsed(Some(p.value), p.rest))
  }

  /** JSON.parse of a stored session record: None when the text is not the
      layout Encode writes (JSON.parse would throw on malformed text). */
  function Decode(text: string): Option<User>
  {
    var id :- ParseField("{\"id\":", text);
    var name :- ParseField(",\"name\":", id.rest);
    var email :- ParseField(",\"email\":", name.rest);
    var role :- ParseField(",\"role\":", email.rest);
    var firm :- ParseField(",\"firm\":", role.rest);
    var avatar :- ParseAvatarField(",\"avatar\":", firm.rest);
    var createdAt :- ParseField(",\"createdAt\":", avatar.rest);
    if createdAt.rest == "}" then
      Some(User(id.value, name.value, email.value, role.value, firm.value, avatar.value, createdAt.value))
    else None
  }

  // ---------------------------------------------------------------------------
  // Round trip
  // ---------------------------------------------------------------------------

  lemma HexDigitValue(d: nat)
    requires d < 16
    ensures HexValue(HexDigit(d)) == Some(d)
  {
  }

  /** A one-letter escape reads back as its character. */
  lemma ReadSimpleEscape(c: char, t: string)
    requires c == '"' || c == '\\' || c as int == 0x08 || c as int == 0x09 || c as int == 0x0A
      || c as int == 0x0C || c as int == 0x0D
    ensures ParseStringBody(EscapeChar(c) + t) == Prepend(c, ParseStringBody(t))
  {
    var s := EscapeChar(c) + t;
    assert s[0] == '\\' && s[1] != 'u' && s[2..] == t;
    assert SimpleEscape(s[1]) == Some(c);
  }

  /** Any other control character is written and read back as \u00XX. */
  lemma ReadUnicodeEscape(c: char, t: string)
    requires c as int < 0x20
    requires c as int != 0x08 && c as int != 0x09 && c as int != 0x0A && c as int != 0x0C && c as int != 0x0D
    ensures ParseStringBody(EscapeChar(c) + t) == Prepend(c, ParseStringBody(t))
  {
    var code := c as int;
    HexDigitValue(code / 16);
    HexDigitValue(code % 16);
    var s := EscapeChar(c) + t;
    assert s[0] == '\\' && s[1] == 'u' && s[6..] == t;
    assert s[2..6] == ['0', '0', HexDigit(code / 16), HexDigit(code % 16)];
    assert UnicodeEscape(s[2..6]) == Some(c);
  }

  /** A printable character other than the quote and the backslash is
      written and read back as itself. */
  lemma ReadPlainChar(c: char, t: string)
    requires c as int >= 0x20 && c != '"' && c != '\\'
    ensures ParseStringBody(EscapeChar(c) + t) == Prepend(c, ParseStringBody(t))
  {
    var s := EscapeChar(c) + t;
    assert s[0] == c && s[1..] == t;
  }

  /** Reading back one escaped character. */
  lemma {:induction false} ParseEscapedChar(c: char, x: string, rest: string)
    requires ParseStringBody(Escape(x) + "\"" + rest) == Some(Parsed(x, rest))
    ensures ParseStringBody(Escape([c] + x) + "\"" + rest) == Some(Parsed([c] + x, rest))
  {
    var t := Escape(x) + "\"" + rest;
    EscapeCons(c, x);
    assert Escape([c] + x) + "\"" + rest == EscapeChar(c) + t;
    if c == '"' || c == '\\' || c as int == 0x08 || c as int == 0x09 || c as int == 0x0A
      || c as int == 0x0C || c as int == 0x0D {
      ReadSimpleEscape(c, t);
    } else if c as int < 0x20 {
      ReadUnicodeEscape(c, t);
    } else {
      ReadPlainChar(c, t);
    }
  }

  lemma {:induction false} ParseQuotedBody(x: string, rest: string)
    ensures ParseStringBody(Escape(x) + "\"" + rest) == Some(Parsed(x, rest))
  {
    if x == [] {
      assert Escape(x) + "\"" + rest == "\"" + rest;
    } else {
      ParseQuotedBody(x[1..], rest);
      assert x == [x[0]] + x[1..];
      ParseEscapedChar(x[0], x[1..], rest);
    }
  }

  /** A quoted string reads back as itself, whatever follows it. */
  lemma ParseQuoted(x: string, rest: string)
    ensures ParseString(Quote(x) + rest) == Some(Parsed(x, rest))
  {
    ParseQuotedBody(x, rest);
    assert (Quote(x) + rest)[1..] == Escape(x) + "\"" + rest;
  }

  lemma ParseLiteralFront(lit: string, rest: string)
    ensures ParseLiteral(lit, lit + rest) == Some(rest)
  {
    assert (lit + rest)[..|lit|] == lit;
  }

  lemma ParseFieldFront(key: string, x: string, rest: string)
    ensures ParseField(key, key + (Quote(x) + rest)) == Some(Parsed(x, rest))
  {
    ParseLiteralFront(key, Quote(x) + rest);
    ParseQuoted(x, rest);
  }

  lemma ParseAvatarFieldFront(key: string, a: Option<string>, rest: string)
    ensures ParseAvatarField(key, key + (AvatarJson(a) + rest)) == Some(Parsed(a, rest))
  {
    ParseLiteralFront(key, AvatarJson(a) + rest);
    match a {
      case None =>
        assert ("null" + rest)[..4] == "null" && ("null" + rest)[4..] == rest;
      case Some(url) =>
        ParseQuoted(url, rest);
        assert (AvatarJson(a) + rest)[0] == '"';
    }
  }

  /** Reading back what login stored gives the same record. */
  lemma DecodeEncode(u: User)
    ensures Decode(Encode(u)) == Some(u)
  {
    var t6 := Quote(u.createdAt) + "}";
    var t5 := AvatarJson(u.avatar) + (",\"createdAt\":" + t6);
    var t4 := Quote(u.firm) + (",\"avatar\":" + t5);
    var t3 := Quote(u.role) + (",\"firm\":" + t4);
    var t2 := Quote(u.email) + (",\"role\":" + t3);
    var t1 := Quote(u.name) + (",\"email\":" + t2);
    var t0 := Quote(u.id) + (",\"name\":" + t1);
    assert Encode(u) == "{\"id\":" + t0;
    ParseFieldFront("{\"id\":", u.id, ",\"name\":" + t1);
    ParseFieldFront(",\"name\":", u.name, ",\"email\":" + t2);
    ParseFieldFront(",\"email\":", u.email, ",\"role\":" + t3);
    ParseFieldFront(",\"role\":", u.role, ",\"firm\":" + t4);
    ParseFieldFront(",\"firm\":", u.firm, ",\"avatar\":" + t5);
    ParseAvatarFieldFront(",\"avatar\":", u.avatar, ",\"createdAt\":" + t6);
    ParseFieldFront(",\"createdAt\":", u.createdAt, "}");
  }
}
