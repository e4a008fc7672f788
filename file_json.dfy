/**
 * The document-picker file record and the text it is persisted as in secure
 * storage. `JSON.stringify` / `JSON.parse` are modelled for exactly this
 * record shape: an object with three string fields and one integer field,
 * strings quoted with `"` and `\` escaped.
 */
module FileJson {
  import opened Wrappers
  import opened Text

  /** One asset returned by the document picker. */
  datatype PickedFile = PickedFile(uri: string, name: string, mimeType: string, size: nat)

  /** A string character as `JSON.stringify` writes it inside quotes. */
  function EscapeChar(c: char): (r: string)
    ensures |r| >= 1
  {
    if c == '"' || c == '\\' then ['\\', c] else [c]
  }

  /** The body of a JSON string literal, without the surrounding quotes. */
  function Escape(s: string): string
  {
    if s == [] then [] else EscapeChar(s[0]) + Escape(s[1..])
  }

  /**
   * Reads a JSON string body up to its closing quote; returns the decoded text
   * and what follows the quote. Only `\"` and `\\` escapes are accepted.
   */
  function ReadString(s: string): (r: Option<(string, string)>)
    ensures r.Some? ==> |r.value.1| < |s|
    decreases |s|
  {
    if s == [] then None
    else if s[0] == '"' then Some(([], s[1..]))
    else if s[0] == '\\' then
      if |s| >= 2 && (s[1] == '"' || s[1] == '\\') then
        match ReadString(s[2..])
        case None => None
        case Some((v, rest)) => Some(([s[1]] + v, rest))
      else None
    else
      match ReadString(s[1..])
      case None => None
      case Some((v, rest)) => Some(([s[0]] + v, rest))
  }

  /** One escaped character in front of a readable string body reads back as that character. */
  lemma ReadEscapedChar(c: char, tail: string, v: string, rest: string)
    requires ReadString(tail) == Some((v, rest))
    ensures ReadString(EscapeChar(c) + tail) == Some(([c] + v, rest))
  {
    var s := EscapeChar(c) + tail;
    if c == '"' || c == '\\' {
      assert s[0] == '\\' && s[1] == c && s[2..] == tail;
    } else {
      assert s[0] == c && s[1..] == tail;
    }
  }

  /** An escaped string followed by its closing quote reads back as itself. */
  lemma {:induction false} ReadEscaped(x: string, rest: string)
    ensures ReadString(Escape(x) + "\"" + rest) == Some((x, rest))
  {
    if x == [] {
      assert Escape(x) + "\"" + rest == ['"'] + rest;
    } else {
      ReadEscaped(x[1..], rest);
      var tail := Escape(x[1..]) + "\"" + rest;
      assert Escape(x) + "\"" + rest == EscapeChar(x[0]) + tail;
      ReadEscapedChar(x[0], tail, x[1..], rest);
      assert [x[0]] + x[1..] == x;
    }
  }

  /** Strips the literal `lit` from the front of `s`. */
  function Expect(lit: string, s: string): (r: Option<string>)
    ensures r.Some? ==> s == lit + r.value
  {
    if |lit| <= |s| && s[..|lit|] == lit then Some(s[|lit|..]) else None
  }

  lemma ExpectAfter(lit: string, rest: string)
    ensures Expect(lit, lit + rest) == Some(rest)
  {
    assert (lit + rest)[..|lit|] == lit;
    assert (lit + rest)[|lit|..] == rest;
  }

  /** Reads a non-negative integer that closes the object: digits then `}` and nothing more. */
  function ReadSizeAndClose(s: string): (r: Option<nat>)
  {
    if |s| >= 2 && s[|s| - 1] == '}' && forall i :: 0 <= i < |s| - 1 ==> IsDigit(s[i])
    then Some(DigitsValue(s[..|s| - 1]))
    else None
  }

  const UriKey := "{\"uri\":\""
  const NameKey := ",\"name\":\""
  const MimeKey := ",\"mimeType\":\""
  const SizeKey := ",\"size\":"

  /** A string field's escaped body, its closing quote, then the rest of the object. */
  function Field(value: string, rest: string): string
  {
    Escape(value) + "\"" + rest
  }

  /** The integer field's text and the closing brace. */
  function SizeText(n: nat): string
  {
    Decimal(n) + "}"
  }

  lemma ReadSizeText(n: nat)
    ensures ReadSizeAndClose(SizeText(n)) == Some(n)
  {
    var s := SizeText(n);
    assert s[..|s| - 1] == Decimal(n);
    DecimalRoundTrip(n);
  }

  /** `JSON.stringify(file)`. */
  function Stringify(f: PickedFile): (r: string)
    ensures IsPrefix(UriKey, r) && r[|r| - 1] == '}'
  {
    UriKey + Field(f.uri, NameKey + Field(f.name, MimeKey + Field(f.mimeType,
      SizeKey + SizeText(f.size))))
  }

  /** Reads one string field's body and the key that follows it. */
  function ReadField(s: string, nextKey: string): (r: Option<(string, string)>)
  {
    var (v, rest) :- ReadString(s);
    var after :- Expect(nextKey, rest);
    Some((v, after))
  }

  lemma ReadFieldOfField(value: string, nextKey: string, rest: string)
    ensures ReadField(Field(value, nextKey + rest), nextKey) == Some((value, rest))
  {
    ReadEscaped(value, nextKey + rest);
    ExpectAfter(nextKey, rest);
  }

  /** `JSON.parse(text)` for the record shape; `None` on any text not in the shape `Stringify` writes. */
  function Parse(text: string): (r: Option<PickedFile>)
    ensures r.Some? ==> IsPrefix(UriKey, text)
  {
    var a :- Expect(UriKey, text);
    var (uri, b) :- ReadField(a, NameKey);
    var (name, c) :- ReadField(b, MimeKey);
    var (mime, d) :- ReadField(c, SizeKey);
    var size :- ReadSizeAndClose(d);
    Some(PickedFile(uri, name, mime, size))
  }

  /** What is stored is what is restored: `JSON.parse(JSON.stringify(f))` equals `f`. */
  lemma {:induction false} ParseStringify(f: PickedFile)
    ensures Parse(Stringify(f)) == Some(f)
  {
    var t2 := Field(f.mimeType, SizeKey + SizeText(f.size));
    var t1 := Field(f.name, MimeKey + t2);
    var t0 := Field(f.uri, NameKey + t1);
    ExpectAfter(UriKey, t0);
    assert Expect(UriKey, Stringify(f)) == Some(t0);
    ReadFieldOfField(f.uri, NameKey, t1);
    ReadFieldOfField(f.name, MimeKey, t2);
    ReadFieldOfField(f.mimeType, SizeKey, SizeText(f.size));
    ReadSizeText(f.size);
  }

  /** Two different picker files are never stored as the same text. */
  lemma StringifyInjective(f: PickedFile, g: PickedFile)
    ensures Stringify(f) == Stringify(g) ==> f == g
  {
    ParseStringify(f);
    ParseStringify(g);
  }
}
