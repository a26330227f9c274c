/**
 * `JSON.stringify` and `JSON.parse` of the session user kept under the
 * `auth_user` key: the object `{"id": …, "username": …, "role": …}` (a
 * missing role is left out, as `JSON.stringify` leaves out undefined
 * properties), with strings quoted as section 25.5.2.3 (QuoteJSONString)
 * of ECMA-262 quotes them.
 */
module UserJson {
  import opened Js
  import opened UserService

  // ---------------------------------------------------------------------
  // Quoting

  function HexDigit(d: nat): (c: char)
    requires d < 16
  {
    "0123456789abcdef"[d]
  }

  /** The JSON text of one character inside a string literal. */
  function EscapeChar(c: char): (r: string)
    ensures r != []
  {
    if c == '"' then "\\\""
    else if c == '\\' then "\\\\"
    else if c == '\U{8}' then "\\b"
    else if c == '\t' then "\\t"
    else if c == '\n' then "\\n"
    else if c == '\U{C}' then "\\f"
    else if c == '\r' then "\\r"
    else if c < ' ' then "\\u00" + [HexDigit(c as int / 16), HexDigit(c as int % 16)]
    else [c]
  }

  /** The inside of the string literal for `s` (without the quotes). */
  function Escape(s: string): (r: string)
    ensures |r| >= |s|
  {
    if s == [] then [] else EscapeChar(s[0]) + Escape(s[1..])
  }

  // ---------------------------------------------------------------------
  // Reading

  function HexValue(c: char): (r: Option<nat>)
    ensures r.Some? ==> r.value < 16
  {
    if '0' <= c <= '9' then Some(c as int - '0' as int)
    else if 'a' <= c <= 'f' then Some(c as int - 'a' as int + 10)
    else if 'A' <= c <= 'F' then Some(c as int - 'A' as int + 10)
    else None
  }

  /** The value of four hexadecimal digits. */
  function Hex4(s: string): (r: Option<nat>)
    requires |s| == 4
    ensures r.Some? ==> r.value < 0x1_0000
  {
    var a :- HexValue(s[0]);
    var b :- HexValue(s[1]);
    var c :- HexValue(s[2]);
    var d :- HexValue(s[3]);
    Some(4096 * a + 256 * b + 16 * c + d)
  }

  /** The character a two-character escape `\e` stands for. */
  function Unescape(e: char): Option<char> {
    match e
    case '"' => Some('"')
    case '\\' => Some('\\')
    case '/' => Some('/')
    case 'b' => Some('\U{8}')
    case 'f' => Some('\U{C}')
    case 'n' => Some('\n')
    case 'r' => Some('\r')
    case 't' => Some('\t')
    case _ => None
  }

  /** Prepends `c` to the text read by a successful read. */
  function Cons(c: char, r: Option<(string, string)>): Option<(string, string)> {
    match r
    case None => None
    case Some(p) => Some(([c] + p.0, p.1))
  }

  /**
   * Reads the inside of a string literal up to its closing quote: the
   * decoded text and what follows the quote, or None for an unterminated
   * literal, a raw control character or a bad escape. A `\u` escape of a
   * lone surrogate half has no `char` and is refused too.
   */
  function ReadChars(s: string): Option<(string, string)>
    decreases |s|
  {
    if s == [] then None
    else if s[0] == '"' then Some(([], s[1..]))
    else if s[0] == '\\' then
      if |s| < 2 then None
      else if s[1] == 'u' then
        if |s| < 6 then None
        else match Hex4(s[2..6])
          case None => None
          case Some(v) =>
            if 0xD800 <= v < 0xE000 then None else Cons(v as char, ReadChars(s[6..]))
      else match Unescape(s[1])
        case None => None
        case Some(d) => Cons(d, ReadChars(s[2..]))
    else if s[0] < ' ' then None
    else Cons(s[0], ReadChars(s[1..]))
  }

  /** A hexadecimal digit is read back as its value. */
  lemma HexDigitValue(d: nat)
    requires d < 16
    ensures HexValue(HexDigit(d)) == Some(d)
  {
    assert HexDigit(d) == "0123456789abcdef"[d];
  }

  /** Reading a two-character escape `\e` of `c`. */
  lemma ReadShortEscape(c: char, t: string)
    requires c == '"' || c == '\\' || c == '\U{8}' || c == '\t' || c == '\n' || c == '\U{C}' || c == '\r'
    ensures ReadChars(EscapeChar(c) + t) == Cons(c, ReadChars(t))
  {
    var s := EscapeChar(c) + t;
    assert |EscapeChar(c)| == 2 && EscapeChar(c)[0] == '\\';
    assert s[0] == '\\' && s[1] == EscapeChar(c)[1] && s[2..] == t;
    assert Unescape(s[1]) == Some(c);
  }

  /** Reading a `\u00hh` escape of a control character `c`. */
  lemma ReadUnicodeEscape(c: char, t: string)
    requires c < ' ' && c != '\U{8}' && c != '\t' && c != '\n' && c != '\U{C}' && c != '\r'
    ensures ReadChars(EscapeChar(c) + t) == Cons(c, ReadChars(t))
  {
    var hi := c as int / 16;
    var lo := c as int % 16;
    var e := "\\u00" + [HexDigit(hi), HexDigit(lo)];
    assert EscapeChar(c) == e;
    var s := e + t;
    assert s[0] == '\\' && s[1] == 'u' && s[6..] == t;
    assert s[2..6] == ['0', '0', HexDigit(hi), HexDigit(lo)];
    HexDigitValue(hi);
    HexDigitValue(lo);
    assert Hex4(s[2..6]) == Some(16 * hi + lo);
    assert (16 * hi + lo) as char == c;
  }

  /** Reading the escape of one character yields that character. */
  lemma ReadEscapedChar(c: char, t: string)
    ensures ReadChars(EscapeChar(c) + t) == Cons(c, ReadChars(t))
  {
    if c == '"' || c == '\\' || c == '\U{8}' || c == '\t' || c == '\n' || c == '\U{C}' || c == '\r' {
      ReadShortEscape(c, t);
    } else if c < ' ' {
      ReadUnicodeEscape(c, t);
    } else {
      var s := EscapeChar(c) + t;
      assert s[0] == c && s[1..] == t;
    }
  }

  /** A quoted string is read back exactly, and reading stops at its
      closing quote. */
  lemma {:induction false} ReadEscaped(x: string, rest: string)
    ensures ReadChars(Escape(x) + "\"" + rest) == Some((x, rest))
  {
    if x == [] {
      assert Escape(x) + "\"" + rest == "\"" + rest;
    } else {
      var t := Escape(x[1..]) + "\"" + rest;
      assert Escape(x) + "\"" + rest == EscapeChar(x[0]) + t;
      ReadEscapedChar(x[0], t);
      ReadEscaped(x[1..], rest);
      assert [x[0]] + x[1..] == x;
    }
  }

  // ---------------------------------------------------------------------
  // The session user

  const IdOpen: string := "{\"id\":\""
  const UsernameKey: string := ",\"username\":\""
  const RoleKey: string := ",\"role\":\""

  /** What follows the `username` string: the role, if any, and the
      closing brace. */
  function RoleTail(role: Option<string>): string {
    if role.Some? then RoleKey + Escape(role.value) + "\"}" else "}"
  }

  /** `JSON.stringify(user)` */
  function Serialize(u: SessionUser): string {
    IdOpen + Escape(u.id) + "\"" + UsernameKey + Escape(u.username) + "\"" + RoleTail(u.role)
  }

  /** What follows `lit` in `s`, if `s` starts with it. */
  function Expect(s: string, lit: string): (r: Option<string>)
    ensures r.Some? ==> s == lit + r.value
  {
    if |lit| <= |s| && s[..|lit|] == lit then Some(s[|lit|..]) else None
  }

  lemma ExpectPrefix(lit: string, t: string)
    ensures Expect(lit + t, lit) == Some(t)
  {
    assert (lit + t)[..|lit|] == lit;
    assert (lit + t)[|lit|..] == t;
  }

  /**
   * `JSON.parse(text)` read as a session user: None when the text is not
   * the JSON of one (a parse error or another shape of value).
   */
  function Parse(s: string): Option<SessionUser> {
    var a :- Expect(s, IdOpen);
    var p :- ReadChars(a);
    ParseUsername(p.0, p.1)
  }

  /** The rest of the object after the `id` string. */
  function ParseUsername(id: string, t: string): Option<SessionUser> {
    var b :- Expect(t, UsernameKey);
    var q :- ReadChars(b);
    ParseRole(id, q.0, q.1)
  }

  /** The rest of the object after the `username` string. */
  function ParseRole(id: string, username: string, t: string): Option<SessionUser> {
    if t == "}" then Some(SessionUser(id, username, None))
    else
      var c :- Expect(t, RoleKey);
      var r :- ReadChars(c);
      if r.1 == "}" then Some(SessionUser(id, username, Some(r.0))) else None
  }

  lemma {:induction false} ParseRoleTail(id: string, username: string, role: Option<string>)
    ensures ParseRole(id, username, RoleTail(role)) == Some(SessionUser(id, username, role))
  {
    if role.Some? {
      var t := RoleTail(role);
      assert t != "}" by {
        assert |t| > 1;
      }
      assert t == RoleKey + (Escape(role.value) + "\"" + "}");
      ExpectPrefix(RoleKey, Escape(role.value) + "\"" + "}");
      ReadEscaped(role.value, "}");
    }
  }

  lemma {:induction false} ParseUsernameTail(id: string, username: string, role: Option<string>)
    ensures ParseUsername(id, UsernameKey + Escape(username) + "\"" + RoleTail(role)) ==
            Some(SessionUser(id, username, role))
  {
    var t := UsernameKey + Escape(username) + "\"" + RoleTail(role);
    assert t == UsernameKey + (Escape(username) + "\"" + RoleTail(role));
    ExpectPrefix(UsernameKey, Escape(username) + "\"" + RoleTail(role));
    ReadEscaped(username, RoleTail(role));
    ParseRoleTail(id, username, role);
  }

  /** The stored user is read back as it was written. */
  lemma {:induction false} ParseSerialize(u: SessionUser)
    ensures Parse(Serialize(u)) == Some(u)
  {
    var afterId := UsernameKey + Escape(u.username) + "\"" + RoleTail(u.role);
    var a := Escape(u.id) + "\"" + afterId;
    var s := Serialize(u);
    assert s == IdOpen + a by {
      SerializeShape(u);
    }
    ExpectPrefix(IdOpen, a);
    ReadEscaped(u.id, afterId);
    ParseUsernameTail(u.id, u.username, u.role);
  }

  lemma SerializeShape(u: SessionUser)
    ensures Serialize(u) ==
      IdOpen + (Escape(u.id) + "\"" + (UsernameKey + Escape(u.username) + "\"" + RoleTail(u.role)))
  {
  }

  /** Text that does not start like a stored user is not one. */
  lemma CorruptTextIsRejected()
    ensures Parse("") == None && Parse("null") == None && Parse("{\"id\":\"1\"") == None
  {
    assert "null"[0] != IdOpen[0];
    var a := "1\"";
    assert Expect("{\"id\":\"1\"", IdOpen) == Some(a) by {
      ExpectPrefix(IdOpen, a);
      assert IdOpen + a == "{\"id\":\"1\"";
    }
    assert ReadChars(a) == Some(("1", "")) by {
      var b := a[1..];
      assert a[0] == '1' && b == ['"'];
      assert b[0] == '"' && b[1..] == [];
      assert ReadChars(b) == Some(([], ""));
      assert ReadChars(a) == Cons('1', ReadChars(a[1..]));
      assert ['1'] + [] == "1";
    }
  }
}
