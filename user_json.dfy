/** The identity object {id, name, email} that the session keeps, and the JSON text it
    is persisted as under the `user` storage key. `Stringify` writes the canonical text
    `{"id":"…","name":"…","email":"…"}` (quote and backslash escaped); `Parse` reads that
    text, or the text `null`, and fails on anything else. That is all the session core
    relies on: parsing either fails or yields an identity (or `null`), and parsing what
    was stringified gives back the identity. */
module UserJson {
  import opened Wrappers

  /** The public identity of a user: the record without its password. */
  datatype User = User(id: string, name: string, email: string)

  const IdField := "{\"id\":\""
  const NameField := ",\"name\":\""
  const EmailField := ",\"email\":\""

  /** The body of a JSON string literal holding `s`. */
  function Escape(s: string): string
  {
    if s == [] then []
    else if s[0] == '"' || s[0] == '\\' then ['\\', s[0]] + Escape(s[1..])
    else [s[0]] + Escape(s[1..])
  }

  /** Reads a string body up to its closing quote; yields the decoded text and what follows. */
  function ParseString(s: string): (r: Option<(string, string)>)
    ensures r.Some? ==> |r.value.1| < |s|
  {
    if s == [] then None
    else if s[0] == '"' then Some(([], s[1..]))
    else if s[0] == '\\' then
      if |s| >= 2 && (s[1] == '"' || s[1] == '\\') then
        match ParseString(s[2..])
        case None => None
        case Some((x, rest)) => Some(([s[1]] + x, rest))
      else None
    else
      match ParseString(s[1..])
      case None => None
      case Some((x, rest)) => Some(([s[0]] + x, rest))
  }

  /** Expects the literal `lit` at the head of `s`, then a string body. */
  function ParseField(lit: string, s: string): Option<(string, string)>
  {
    if |lit| <= |s| && s[..|lit|] == lit then ParseString(s[|lit|..]) else None
  }

  /** The member introduced by `lit` holding the string `x`, followed by `rest`. */
  function WriteField(lit: string, x: string, rest: string): string
  {
    lit + Escape(x) + "\"" + rest
  }

  /** Models `JSON.stringify(user)`. */
  function Stringify(u: User): (text: string)
    ensures |text| > 0 && text[0] == '{' && text[|text| - 1] == '}'
  {
    WriteField(IdField, u.id, WriteField(NameField, u.name, WriteField(EmailField, u.email, "}")))
  }

  /** The JSON text of `null`. */
  const NullText := "null"

  /** Models `JSON.parse(text)`: `None` is the thrown `SyntaxError`, `Some(None)` the value
      `null`, `Some(Some(u))` an identity object. */
  function Parse(text: string): (r: Option<Option<User>>)
    ensures r == Some(None) <==> text == NullText
    ensures text == "" ==> r.None?
  {
    if text == NullText then Some(None) else
    match ParseField(IdField, text)
    case None => None
    case Some((id, r1)) =>
      match ParseField(NameField, r1)
      case None => None
      case Some((name, r2)) =>
        match ParseField(EmailField, r2)
        case None => None
        case Some((email, r3)) => if r3 == "}" then Some(Some(User(id, name, email))) else None
  }

  lemma {:induction false} ParseEscaped(x: string, rest: string)
    ensures ParseString(Escape(x) + "\"" + rest) == Some((x, rest))
  {
    var s := Escape(x) + "\"" + rest;
    if x == [] {
      assert s == "\"" + rest;
      assert s[1..] == rest;
    } else {
      var tail := Escape(x[1..]) + "\"" + rest;
      ParseEscaped(x[1..], rest);
      if x[0] == '"' || x[0] == '\\' {
        assert s == ['\\', x[0]] + tail;
        assert s[0] == '\\' && s[1] == x[0] && s[2..] == tail;
      } else {
        assert s == [x[0]] + tail;
        assert s[0] == x[0] && s[1..] == tail;
      }
      assert [x[0]] + x[1..] == x;
    }
  }

  lemma {:induction false} ParsedIsEscaped(s: string)
    requires ParseString(s).Some?
    ensures s == Escape(ParseString(s).value.0) + "\"" + ParseString(s).value.1
  {
    if s[0] == '"' {
      assert s == "\"" + s[1..];
    } else if s[0] == '\\' {
      ParsedIsEscaped(s[2..]);
      var x := ParseString(s[2..]).value.0;
      assert ParseString(s).value.0 == [s[1]] + x;
      assert ([s[1]] + x)[1..] == x;
      assert s == [s[0], s[1]] + s[2..];
    } else {
      ParsedIsEscaped(s[1..]);
      var x := ParseString(s[1..]).value.0;
      assert ParseString(s).value.0 == [s[0]] + x;
      assert ([s[0]] + x)[1..] == x;
      assert s == [s[0]] + s[1..];
    }
  }

  lemma ParseFieldOf(lit: string, x: string, rest: string)
    ensures ParseField(lit, WriteField(lit, x, rest)) == Some((x, rest))
  {
    var s := lit + Escape(x) + "\"" + rest;
    assert s[..|lit|] == lit;
    assert s[|lit|..] == Escape(x) + "\"" + rest;
    ParseEscaped(x, rest);
  }

  lemma ParsedFieldIs(lit: string, s: string)
    requires ParseField(lit, s).Some?
    ensures s == WriteField(lit, ParseField(lit, s).value.0, ParseField(lit, s).value.1)
  {
    ParsedIsEscaped(s[|lit|..]);
    assert s == s[..|lit|] + s[|lit|..];
  }

  /** Parsing what was stringified gives back the identity. */
  lemma ParseStringify(u: User)
    ensures Parse(Stringify(u)) == Some(Some(u))
  {
    assert Stringify(u)[0] == '{';
    var tail2 := WriteField(EmailField, u.email, "}");
    var tail1 := WriteField(NameField, u.name, tail2);
    ParseFieldOf(IdField, u.id, tail1);
    ParseFieldOf(NameField, u.name, tail2);
    ParseFieldOf(EmailField, u.email, "}");
  }

  /** `Parse` accepts only the canonical text: whatever parses to an identity is that identity stringified. */
  lemma StringifyParse(text: string)
    requires Parse(text).Some? && Parse(text).value.Some?
    ensures Stringify(Parse(text).value.value) == text
  {
    var (id, r1) := ParseField(IdField, text).value;
    var (name, r2) := ParseField(NameField, r1).value;
    var (email, r3) := ParseField(EmailField, r2).value;
    ParsedFieldIs(IdField, text);
    ParsedFieldIs(NameField, r1);
    ParsedFieldIs(EmailField, r2);
  }

  /** Stringified identities are never the empty string, so JavaScript reads them as truthy. */
  lemma StringifyNonEmpty(u: User)
    ensures Stringify(u) != ""
  {
    assert Stringify(u)[0] == '{';
  }
}
