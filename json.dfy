/**
 * The JSON text of a flat object whose members are all strings, as
 * `JSON.stringify` writes it (no whitespace, members in insertion order,
 * the escapes of ECMA-404/RFC 8259 that `JSON.stringify` chooses) and a
 * parser for that text. The stored user record goes through these two
 * functions when it is written to and read back from browser storage.
 */
module Json {
  import opened Wrappers

  type Member = (string, string)

  const Backspace: char := 8 as char
  const FormFeed: char := 12 as char

  // ---------------------------------------------------------------------
  // Writing

  function HexDigit(d: nat): (c: char)
    requires d < 16
  {
    if d < 10 then ('0' as int + d) as char else ('a' as int + d - 10) as char
  }

  /** The escape `JSON.stringify` writes for one character of a string. */
  function EscapeChar(c: char): (r: string)
    ensures |r| >= 1
  {
    if c == '"' then "\\\""
    else if c == '\\' then "\\\\"
    else if c == Backspace then "\\b"
    else if c == '\t' then "\\t"
    else if c == '\n' then "\\n"
    else if c == FormFeed then "\\f"
    else if c == '\r' then "\\r"
    else if c < ' ' then "\\u00" + [HexDigit(c as int / 16), HexDigit(c as int % 16)]
    else [c]
  }

  function Escape(s: string): string {
    if s == [] then [] else EscapeChar(s[0]) + Escape(s[1..])
  }

  function Quote(s: string): string {
    "\"" + Escape(s) + "\""
  }

  function MemberText(m: Member): string {
    Quote(m.0) + ":" + Quote(m.1)
  }

  function MembersText(ms: seq<Member>): string
    requires ms != []
  {
    if |ms| == 1 then MemberText(ms[0]) else MemberText(ms[0]) + "," + MembersText(ms[1..])
  }

  /** `JSON.stringify` of an object whose members are `ms`, in order. */
  function Stringify(ms: seq<Member>): (r: string)
    ensures |r| >= 2 && r[0] == '{' && r[|r| - 1] == '}'
  {
    if ms == [] then "{}" else "{" + MembersText(ms) + "}"
  }

  // ---------------------------------------------------------------------
  // Reading

  function HexValue(c: char): Option<nat> {
    if '0' <= c <= '9' then Some(c as int - '0' as int)
    else if 'a' <= c <= 'f' then Some(c as int - 'a' as int + 10)
    else if 'A' <= c <= 'F' then Some(c as int - 'A' as int + 10)
    else None
  }

  /** The character named by the four hex digits of a `\uXXXX` escape (a lone surrogate names none). */
  function UnicodeEscape(h: string): Option<char>
    requires |h| == 4
  {
    match (HexValue(h[0]), HexValue(h[1]), HexValue(h[2]), HexValue(h[3]))
    case (Some(a), Some(b), Some(c), Some(d)) =>
      var n := ((a * 16 + b) * 16 + c) * 16 + d;
      if n < 0xD800 || 0xE000 <= n then Some(n as char) else None
    case _ => None
  }

  /** The character a two-character escape `\e` stands for. */
  function SimpleEscape(e: char): Option<char> {
    if e == '"' then Some('"')
    else if e == '\\' then Some('\\')
    else if e == '/' then Some('/')
    else if e == 'b' then Some(Backspace)
    else if e == 'f' then Some(FormFeed)
    else if e == 'n' then Some('\n')
    else if e == 'r' then Some('\r')
    else if e == 't' then Some('\t')
    else None
  }

  function Prepend(c: char, p: Option<(string, string)>): Option<(string, string)> {
    match p
    case None => None
    case Some((v, rest)) => Some(([c] + v, rest))
  }

  /**
   * Reads the rest of a string literal whose opening quote has been consumed:
   * its value and the text after the closing quote.
   */
  function StringBody(t: string): (r: Option<(string, string)>)
    ensures r.Some? ==> |r.value.1| < |t|
    decreases |t|
  {
    if t == [] then None
    else if t[0] == '"' then Some(("", t[1..]))
    else if t[0] == '\\' then
      if |t| < 2 then None
      else if t[1] == 'u' then
        if |t| < 6 then None
        else match UnicodeEscape(t[2..6])
          case None => None
          case Some(c) => Prepend(c, StringBody(t[6..]))
      else match SimpleEscape(t[1])
        case None => None
        case Some(c) => Prepend(c, StringBody(t[2..]))
    else if t[0] < ' ' then None
    else Prepend(t[0], StringBody(t[1..]))
  }

  /** Reads one `"key":"value"` member; returns it with the text that follows. */
  function ParseMember(t: string): (r: Option<(Member, string)>)
    ensures r.Some? ==> |r.value.1| < |t|
  {
    if t == [] || t[0] != '"' then None
    else match StringBody(t[1..])
      case None => None
      case Some((k, r1)) =>
        if |r1| < 2 || r1[0] != ':' || r1[1] != '"' then None
        else match StringBody(r1[2..])
          case None => None
          case Some((v, r2)) => Some(((k, v), r2))
  }

  /** Reads `member ("," member)* "}"` up to the end of the text. */
  function ParseMembers(t: string): Option<seq<Member>>
    decreases |t|
  {
    match ParseMember(t)
    case None => None
    case Some((m, r)) =>
      if r == "}" then Some([m])
      else if r != [] && r[0] == ',' then
        match ParseMembers(r[1..])
        case None => None
        case Some(ms) => Some([m] + ms)
      else None
  }

  /** `JSON.parse` restricted to flat objects of string members; anything else is rejected. */
  function Parse(s: string): (r: Option<seq<Member>>)
    ensures r.Some? ==> s != [] && s[0] == '{'
  {
    if s == "{}" then Some([])
    else if s != [] && s[0] == '{' then ParseMembers(s[1..])
    else None
  }

  /** The value of `key` in a parsed object; with repeated keys the last one wins, as in `JSON.parse`. */
  function Get(ms: seq<Member>, key: string): (r: Option<string>)
    ensures r.None? <==> forall i :: 0 <= i < |ms| ==> ms[i].0 != key
    ensures r.Some? ==>
      exists i :: 0 <= i < |ms| && ms[i] == (key, r.value) && forall j :: i < j < |ms| ==> ms[j].0 != key
  {
    if ms == [] then None
    else if ms[|ms| - 1].0 == key then
      assert ms[|ms| - 1] == (key, ms[|ms| - 1].1);
      Some(ms[|ms| - 1].1)
    else Get(ms[..|ms| - 1], key)
  }

  // ---------------------------------------------------------------------
  // Round trip

  lemma HexRoundTrip(d: nat)
    requires d < 16
    ensures HexValue(HexDigit(d)) == Some(d)
  {
  }

  lemma EscapeCharRoundTrip(c: char, u: string)
    ensures StringBody(EscapeChar(c) + u) == Prepend(c, StringBody(u))
  {
    var t := EscapeChar(c) + u;
    if c < ' ' && c != Backspace && c != '\t' && c != '\n' && c != FormFeed && c != '\r' {
      var hi, lo := HexDigit(c as int / 16), HexDigit(c as int % 16);
      assert t == ['\\', 'u', '0', '0', hi, lo] + u;
      assert t[2..6] == ['0', '0', hi, lo];
      assert t[6..] == u;
      HexRoundTrip(c as int / 16);
      HexRoundTrip(c as int % 16);
      assert UnicodeEscape(t[2..6]) == Some(c);
    } else if c == '"' || c == '\\' || c == Backspace || c == '\t' || c == '\n' || c == FormFeed || c == '\r' {
      assert t[2..] == u;
    } else {
      assert t[1..] == u;
    }
  }

  lemma {:induction false} EscapeRoundTrip(s: string, rest: string)
    ensures StringBody(Escape(s) + "\"" + rest) == Some((s, rest))
  {
    if s == [] {
      assert Escape(s) + "\"" + rest == "\"" + rest;
    } else {
      var u := Escape(s[1..]) + "\"" + rest;
      EscapeRoundTrip(s[1..], rest);
      assert Escape(s) + "\"" + rest == EscapeChar(s[0]) + u;
      EscapeCharRoundTrip(s[0], u);
      assert [s[0]] + s[1..] == s;
    }
  }

  lemma MemberRoundTrip(m: Member, rest: string)
    ensures ParseMember(MemberText(m) + rest) == Some((m, rest))
  {
    var e0, e1 := Escape(m.0), Escape(m.1);
    var q1 := e1 + "\"" + rest;
    var r1 := ":\"" + q1;
    var t := MemberText(m) + rest;
    assert t == "\"" + (e0 + "\"" + r1) by {
      MemberShape(e0, e1, rest);
    }
    assert t[1..] == e0 + "\"" + r1;
    EscapeRoundTrip(m.0, r1);
    assert r1[2..] == q1;
    EscapeRoundTrip(m.1, rest);
    ParseMemberStep(t, m.0, r1, m.1, rest);
  }

  lemma MemberShape(e0: string, e1: string, rest: string)
    ensures ("\"" + e0 + "\"") + ":" + ("\"" + e1 + "\"") + rest
         == "\"" + (e0 + "\"" + (":\"" + (e1 + "\"" + rest)))
  {
  }

  lemma ParseMemberStep(t: string, k: string, r1: string, v: string, r2: string)
    requires t != [] && t[0] == '"' && StringBody(t[1..]) == Some((k, r1))
    requires |r1| >= 2 && r1[0] == ':' && r1[1] == '"' && StringBody(r1[2..]) == Some((v, r2))
    ensures ParseMember(t) == Some(((k, v), r2))
  {
  }

  lemma {:induction false} MembersRoundTrip(ms: seq<Member>)
    requires ms != []
    ensures ParseMembers(MembersText(ms) + "}") == Some(ms)
  {
    if |ms| == 1 {
      MemberRoundTrip(ms[0], "}");
      assert [ms[0]] == ms;
    } else {
      var tail := MembersText(ms[1..]) + "}";
      assert MembersText(ms) + "}" == MemberText(ms[0]) + ("," + tail);
      MemberRoundTrip(ms[0], "," + tail);
      MembersRoundTrip(ms[1..]);
      ParseMembersStep(MemberText(ms[0]) + ("," + tail), ms[0], tail, ms[1..]);
      assert [ms[0]] + ms[1..] == ms;
    }
  }

  lemma ParseMembersStep(t: string, m: Member, tail: string, ms: seq<Member>)
    requires ParseMember(t) == Some((m, "," + tail)) && ParseMembers(tail) == Some(ms)
    ensures ParseMembers(t) == Some([m] + ms)
  {
    assert ("," + tail)[1..] == tail;
  }

  /** What `Stringify` writes, `Parse` reads back unchanged. */
  lemma ParseStringify(ms: seq<Member>)
    ensures Parse(Stringify(ms)) == Some(ms)
  {
    if ms != [] {
      var body := MembersText(ms);
      var s := Stringify(ms);
      MembersTextNonEmpty(ms);
      assert s == "{" + body + "}" && |s| > 2;
      assert s[1..] == body + "}";
      MembersRoundTrip(ms);
    }
  }

  /** A non-empty member list is written as at least one quoted key. */
  lemma MembersTextNonEmpty(ms: seq<Member>)
    requires ms != []
    ensures |MembersText(ms)| > 0
  {
    assert MemberText(ms[0])[0] == '"';
  }
}
