/** The part of `JSON.stringify` and `JSON.parse` that the settings panel
    uses: flat objects whose values are strings. Encoding follows
    `JSON.stringify` (short escapes for `"`, `\`, backspace, form feed, new
    line, carriage return and tab, `\u00xx` in lower-case hex for the other
    control characters, members in insertion order, no white space).
    Decoding follows `JSON.parse` on such objects, white space between tokens
    included; `None` stands for the `SyntaxError` it throws. */
module Json {
  import opened Common

  predicate IsJsonSpace(c: char)
  {
    c == ' ' || c == '\t' || c == '\n' || c == '\r'
  }

  function SkipSpace(s: string): (r: string)
    ensures |r| <= |s| && r == s[|s| - |r|..]
    ensures r == [] || !IsJsonSpace(r[0])
  {
    if s != [] && IsJsonSpace(s[0]) then SkipSpace(s[1..]) else s
  }

  function HexChar(d: nat): char
    requires d < 16
  {
    if d < 10 then ('0' as int + d) as char else ('a' as int + d - 10) as char
  }

  function HexDigitValue(c: char): (r: Option<nat>)
    ensures r.Some? ==> r.value < 16
  {
    if '0' <= c <= '9' then Some(c as int - '0' as int)
    else if 'a' <= c <= 'f' then Some(c as int - 'a' as int + 10)
    else if 'A' <= c <= 'F' then Some(c as int - 'A' as int + 10)
    else None
  }

  /** Value of four hex digits. */
  function Hex4(h: string): (r: Option<nat>)
    requires |h| == 4
    ensures r.Some? ==> r.value < 0x1_0000
  {
    match (HexDigitValue(h[0]), HexDigitValue(h[1]), HexDigitValue(h[2]), HexDigitValue(h[3]))
    case (Some(a), Some(b), Some(c), Some(d)) => Some(((a * 16 + b) * 16 + c) * 16 + d)
    case _ => None
  }

  /** How `JSON.stringify` writes one character inside a string literal. */
  function EscapeChar(c: char): string
  {
    if c == '"' then "\\\""
    else if c == '\\' then "\\\\"
    else if c == '\U{8}' then "\\b"
    else if c == '\U{C}' then "\\f"
    else if c == '\n' then "\\n"
    else if c == '\r' then "\\r"
    else if c == '\t' then "\\t"
    else if c < ' ' then "\\u00" + [HexChar(c as int / 16), HexChar(c as int % 16)]
    else [c]
  }

  function EscapeString(v: string): string
  {
    if v == [] then "" else EscapeChar(v[0]) + EscapeString(v[1..])
  }

  /** A string literal. */
  function Quote(v: string): string
  {
    "\"" + EscapeString(v) + "\""
  }

  /** One member, `"key":"value"`. */
  function MemberText(key: string, value: string): string
  {
    Quote(key) + ":" + Quote(value)
  }

  /** The members of a non-empty object, comma separated, then `end`. */
  function EncodeMembers(fields: seq<(string, string)>, end: string): string
    requires fields != []
  {
    MemberText(fields[0].0, fields[0].1)
    + (if |fields| == 1 then end else "," + EncodeMembers(fields[1..], end))
  }

  /** `JSON.stringify` of an object with string-valued properties, in the
      given order. */
  function EncodeObject(fields: seq<(string, string)>): string
  {
    "{" + (if fields == [] then "}" else EncodeMembers(fields, "}"))
  }

  /** The escape sequence after a backslash: the character it stands for
      and the text after it. `\u` escapes of surrogate halves are not
      accepted. */
  function Unescape(t: string): (r: Option<(char, string)>)
    ensures r.Some? ==> |r.value.1| < |t|
  {
    if t == [] then None
    else if t[0] == '"' || t[0] == '\\' || t[0] == '/' then Some((t[0], t[1..]))
    else if t[0] == 'b' then Some(('\U{8}', t[1..]))
    else if t[0] == 'f' then Some(('\U{C}', t[1..]))
    else if t[0] == 'n' then Some(('\n', t[1..]))
    else if t[0] == 'r' then Some(('\r', t[1..]))
    else if t[0] == 't' then Some(('\t', t[1..]))
    else if t[0] == 'u' && |t| >= 5 then
      match Hex4(t[1..5])
      case None => None
      case Some(v) => if 0xD800 <= v < 0xE000 then None else Some((v as char, t[5..]))
    else None
  }

  /** The next character of a string literal's body, and the text after
      it: a plain character, or an escape sequence. Raw control characters
      are refused. */
  function NextChar(s: string): (r: Option<(char, string)>)
    ensures r.Some? ==> |r.value.1| < |s|
  {
    if s == [] || s[0] < ' ' then None
    else if s[0] == '\\' then Unescape(s[1..])
    else Some((s[0], s[1..]))
  }

  /** Reads the rest of a string literal whose opening quote is already
      consumed: its value and the text after the closing quote. */
  function ParseStringBody(s: string): (r: Option<(string, string)>)
    ensures r.Some? ==> |r.value.1| < |s|
    decreases |s|
  {
    if s != [] && s[0] == '"' then Some(("", s[1..]))
    else match NextChar(s)
      case None => None
      case Some((c, rest)) =>
        match ParseStringBody(rest)
        case None => None
        case Some((v, after)) => Some(([c] + v, after))
  }

  /** A string literal: its value and the text after it. */
  function ParseQuoted(s: string): (r: Option<(string, string)>)
    ensures r.Some? ==> |r.value.1| < |s|
  {
    if s == [] || s[0] != '"' then None else ParseStringBody(s[1..])
  }

  /** One `"key": "value"` member: its key, its value and the text after
      the value, white space skipped. */
  function ParseMember(s: string): (r: Option<(string, string, string)>)
    ensures r.Some? ==> |r.value.2| < |s|
  {
    match ParseQuoted(s)
    case None => None
    case Some((key, r1)) =>
      match ParseValue(r1)
      case None => None
      case Some((value, after)) => Some((key, value, after))
  }

  /** The rest of a member after its key: the colon, the value literal and
      the text after it, white space skipped. */
  function ParseValue(r1: string): (r: Option<(string, string)>)
    ensures r.Some? ==> |r.value.1| < |r1|
  {
    var r2 := SkipSpace(r1);
    if r2 == [] || r2[0] != ':' then None
    else match ParseQuoted(SkipSpace(r2[1..]))
      case None => None
      case Some((value, r4)) => Some((value, SkipSpace(r4)))
  }

  /** Members from the start of a member to the closing brace; each member
      overrides any earlier one with the same key. */
  function ParseMembers(s: string, acc: map<string, string>): (r: Option<map<string, string>>)
    decreases |s|
  {
    match ParseMember(s)
    case None => None
    case Some((key, value, rest)) =>
      if rest == [] then None
      else if rest[0] == '}' then (if SkipSpace(rest[1..]) == [] then Some(acc[key := value]) else None)
      else if rest[0] == ',' then ParseMembers(SkipSpace(rest[1..]), acc[key := value])
      else None
  }

  /** `JSON.parse(text)` for a text holding one object. */
  function ParseObject(text: string): Option<map<string, string>>
  {
    var t := SkipSpace(text);
    if t == [] || t[0] != '{' then None
    else
      var u := SkipSpace(t[1..]);
      if u != [] && u[0] == '}' then (if SkipSpace(u[1..]) == [] then Some(map[]) else None)
      else ParseMembers(u, map[])
  }

  /** The object the members build: later keys override earlier ones. */
  function Collect(acc: map<string, string>, fields: seq<(string, string)>): map<string, string>
    decreases fields
  {
    if fields == [] then acc else Collect(acc[fields[0].0 := fields[0].1], fields[1..])
  }

  lemma HexCharValue(d: nat)
    requires d < 16
    ensures HexDigitValue(HexChar(d)) == Some(d)
  {
  }

  /** One escaped character is read back as itself. */
  lemma EscapeCharRoundTrip(c: char, t: string)
    ensures ParseStringBody(EscapeChar(c) + t) ==
              match ParseStringBody(t)
              case None => None
              case Some((v, after)) => Some(([c] + v, after))
  {
    var e := EscapeChar(c);
    var s := e + t;
    if c < ' ' && c != '\U{8}' && c != '\U{C}' && c != '\n' && c != '\r' && c != '\t' {
      var hi, lo := c as int / 16, c as int % 16;
      HexCharValue(hi);
      HexCharValue(lo);
      assert s[1..] == ['u', '0', '0', HexChar(hi), HexChar(lo)] + t;
      assert s[2..6] == ['0', '0', HexChar(hi), HexChar(lo)];
      assert Hex4(s[2..6]) == Some(c as int);
      assert Unescape(s[1..]) == Some((c, t));
    } else if c == '"' || c == '\\' || c == '\U{8}' || c == '\U{C}' || c == '\n' || c == '\r' || c == '\t' {
      assert s[0] == '\\' && s[1..] == [e[1]] + t;
      assert Unescape(s[1..]) == Some((c, t));
    } else {
      assert s[0] == c && s[1..] == t;
    }
  }

  /** A string literal body is read back as the string, and reading stops
      right after its closing quote. */
  lemma {:induction false} EscapeStringRoundTrip(v: string, rest: string)
    ensures ParseStringBody(EscapeString(v) + "\"" + rest) == Some((v, rest))
  {
    if v == [] {
      assert EscapeString(v) + "\"" + rest == "\"" + rest;
    } else {
      var t := EscapeString(v[1..]) + "\"" + rest;
      assert EscapeString(v) + "\"" + rest == EscapeChar(v[0]) + t;
      EscapeStringRoundTrip(v[1..], rest);
      EscapeCharRoundTrip(v[0], t);
      assert [v[0]] + v[1..] == v;
    }
  }

  /** A string literal followed by any text is read back, up to that text. */
  lemma QuotedThen(v: string, rest: string)
    ensures ParseQuoted(Quote(v) + rest) == Some((v, rest))
  {
    var s := Quote(v) + rest;
    assert s == "\"" + (EscapeString(v) + "\"" + rest);
    assert s[1..] == EscapeString(v) + "\"" + rest;
    EscapeStringRoundTrip(v, rest);
  }

  /** Text that does not start with white space is left as it is. */
  lemma NoSpaceToSkip(s: string)
    requires s != [] && !IsJsonSpace(s[0])
    ensures SkipSpace(s) == s
  {
  }

  /** The member parse once the key literal has been read. */
  lemma MemberUnfold(s: string, key: string, r1: string, value: string, after: string)
    requires ParseQuoted(s) == Some((key, r1)) && ParseValue(r1) == Some((value, after))
    ensures ParseMember(s) == Some((key, value, after))
  {
  }

  /** The part after the key, once the value literal has been read. */
  lemma ValueUnfold(r1: string, r3: string, value: string, r4: string)
    requires SkipSpace(r1) != [] && SkipSpace(r1)[0] == ':' && r3 == SkipSpace(SkipSpace(r1)[1..])
    requires ParseQuoted(r3) == Some((value, r4))
    ensures ParseValue(r1) == Some((value, SkipSpace(r4)))
  {
  }

  /** A member whose key and value literals read back as given. */
  lemma MemberReadFrom(text: string, key: string, afterKey: string, valueText: string, value: string, after: string)
    requires ParseQuoted(text) == Some((key, afterKey)) && afterKey == ":" + valueText
    requires ParseQuoted(valueText) == Some((value, after))
    requires after != [] && !IsJsonSpace(after[0])
    ensures ParseMember(text) == Some((key, value, after))
  {
    NoSpaceToSkip(afterKey);
    assert afterKey[1..] == valueText;
    assert valueText != [] && valueText[0] == '"';
    NoSpaceToSkip(valueText);
    NoSpaceToSkip(after);
    ValueUnfold(afterKey, valueText, value, after);
    MemberUnfold(text, key, afterKey, value, after);
  }

  /** An encoded member is read back, up to the text after it. */
  lemma MemberRead(key: string, value: string, after: string)
    requires after != [] && !IsJsonSpace(after[0])
    ensures ParseMember(MemberText(key, value) + after) == Some((key, value, after))
  {
    var valueText := Quote(value) + after;
    var afterKey := ":" + valueText;
    assert Quote(key) + ":" + Quote(value) + after == Quote(key) + afterKey;
    QuotedThen(key, afterKey);
    QuotedThen(value, after);
    MemberReadFrom(Quote(key) + afterKey, key, afterKey, valueText, value, after);
  }

  /** Encoded members start with the opening quote of the first key. */
  lemma EncodeMembersStart(fields: seq<(string, string)>, end: string)
    requires fields != []
    ensures var text := EncodeMembers(fields, end); text != [] && text[0] == '"'
  {
    var open := "\"" + EscapeString(fields[0].0);
    assert open[0] == '"';
    var m := MemberText(fields[0].0, fields[0].1);
    assert m[0] == open[0];
    var text := EncodeMembers(fields, end);
    assert text[0] == m[0];
  }

  /** What the members parse does after one member. */
  lemma MembersStep(text: string, key: string, value: string, after: string, acc: map<string, string>)
    requires ParseMember(text) == Some((key, value, after)) && after != []
    ensures ParseMembers(text, acc) ==
              if after[0] == '}' then (if SkipSpace(after[1..]) == [] then Some(acc[key := value]) else None)
              else if after[0] == ',' then ParseMembers(SkipSpace(after[1..]), acc[key := value])
              else None
  {
  }

  /** The last member is followed by the closing brace. */
  lemma LastMember(key: string, value: string, acc: map<string, string>)
    ensures ParseMembers(MemberText(key, value) + "}", acc) == Some(acc[key := value])
  {
    var text := MemberText(key, value) + "}";
    MemberRead(key, value, "}");
    MembersStep(text, key, value, "}", acc);
    assert "}"[1..] == [];
  }

  /** A member followed by a comma hands the rest to the next member. */
  lemma InnerMember(key: string, value: string, next: string, acc: map<string, string>)
    requires next != [] && next[0] == '"'
    ensures ParseMembers(MemberText(key, value) + ("," + next), acc) == ParseMembers(next, acc[key := value])
  {
    var after := "," + next;
    var text := MemberText(key, value) + after;
    MemberRead(key, value, after);
    MembersStep(text, key, value, after, acc);
    assert after[1..] == next;
    assert SkipSpace(next) == next;
  }

  /** Reading the members back rebuilds the same object. */
  lemma {:induction false} MembersRoundTrip(fields: seq<(string, string)>, acc: map<string, string>)
    requires fields != []
    ensures ParseMembers(EncodeMembers(fields, "}"), acc) == Some(Collect(acc, fields))
  {
    var key, value := fields[0].0, fields[0].1;
    if |fields| == 1 {
      LastMember(key, value, acc);
    } else {
      var next := EncodeMembers(fields[1..], "}");
      EncodeMembersStart(fields[1..], "}");
      InnerMember(key, value, next, acc);
      MembersRoundTrip(fields[1..], acc[key := value]);
    }
  }

  /** An opening brace whose next non-space character closes the object. */
  lemma ObjectCloses(text: string, u: string)
    requires text != [] && text[0] == '{' && u == SkipSpace(text[1..])
    requires u != [] && u[0] == '}' && SkipSpace(u[1..]) == []
    ensures ParseObject(text) == Some(map[])
  {
    NoSpaceToSkip(text);
  }

  /** An opening brace whose next non-space character starts a member. */
  lemma ObjectMembers(text: string, u: string)
    requires text != [] && text[0] == '{' && u == SkipSpace(text[1..])
    requires u != [] && u[0] == '"'
    ensures ParseObject(text) == ParseMembers(u, map[])
  {
    NoSpaceToSkip(text);
  }

  /** The text after the brace of `{}` is a lone closing brace. */
  lemma BracePair(text: string)
    requires |text| == 2 && text[0] == '{' && text[1] == '}'
    ensures SkipSpace(text[1..]) == text[1..] && text[1..] != [] && text[1..][0] == '}'
    ensures SkipSpace(text[1..][1..]) == []
  {
    NoSpaceToSkip(text[1..]);
    assert |text[1..][1..]| == 0;
  }

  /** `JSON.stringify({})` is `{}`. */
  lemma EmptyEncoding()
    ensures |EncodeObject([])| == 2 && EncodeObject([])[0] == '{' && EncodeObject([])[1] == '}'
  {
  }

  /** `{}` parses to the empty object. */
  lemma EmptyObjectParses(text: string)
    requires |text| == 2 && text[0] == '{' && text[1] == '}'
    ensures ParseObject(text) == Some(map[])
  {
    BracePair(text);
    ObjectCloses(text, text[1..]);
  }

  /** After the opening brace, a text whose members start at once is read
      by the members parse. */
  lemma ObjectOpens(text: string, body: string)
    requires text == "{" + body && body != [] && body[0] == '"'
    ensures ParseObject(text) == ParseMembers(body, map[])
  {
    assert text[0] == '{' && text[1..] == body;
    NoSpaceToSkip(body);
    ObjectMembers(text, body);
  }

  /** `JSON.parse(JSON.stringify(o))` gives back an object with the same
      properties. */
  lemma ObjectRoundTrip(fields: seq<(string, string)>)
    ensures ParseObject(EncodeObject(fields)) == Some(Collect(map[], fields))
  {
    if fields == [] {
      EmptyEncoding();
      EmptyObjectParses(EncodeObject(fields));
    } else {
      var body := EncodeMembers(fields, "}");
      EncodeMembersStart(fields, "}");
      ObjectOpens(EncodeObject(fields), body);
      MembersRoundTrip(fields, map[]);
    }
  }
}
