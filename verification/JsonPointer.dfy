/** JSON Pointer paths (section 3 of RFC 6901) as crates/epoch-diff builds them. */
module JsonPointer {

  /** `str::replace` with a one-character pattern. */
  function Replace(s: string, c: char, with: string): string {
    if s == "" then "" else (if s[0] == c then with else [s[0]]) + Replace(s[1..], c, with)
  }

  /** `json_pointer_token` */
  function Token(s: string): string {
    Replace(Replace(s, '~', "~0"), '/', "~1")
  }

  /** Escaping in one pass, character by character. */
  function Escape(s: string): string {
    if s == "" then "" else EscapeChar(s[0]) + Escape(s[1..])
  }

  function EscapeChar(c: char): string {
    if c == '~' then "~0" else if c == '/' then "~1" else [c]
  }

  /** Reading an escaped token back. */
  function Unescape(s: string): string {
    if s == "" then ""
    else if |s| >= 2 && s[0] == '~' && s[1] == '0' then "~" + Unescape(s[2..])
    else if |s| >= 2 && s[0] == '~' && s[1] == '1' then "/" + Unescape(s[2..])
    else [s[0]] + Unescape(s[1..])
  }

  lemma {:induction false} ReplaceConcat(s: string, t: string, c: char, with: string)
    ensures Replace(s + t, c, with) == Replace(s, c, with) + Replace(t, c, with)
  {
    if s == "" {
      assert s + t == t;
    } else {
      assert (s + t)[1..] == s[1..] + t;
      ReplaceConcat(s[1..], t, c, with);
    }
  }

  lemma EscapesChar(c: char)
    ensures Replace(if c == '~' then "~0" else [c], '/', "~1") == EscapeChar(c)
  {
    if c == '~' {
      var s := "~0";
      assert s[1..] == ['0'];
      assert Replace(s[1..], '/', "~1") == ['0'] + Replace([], '/', "~1");
    } else {
      var s := [c];
      assert s[1..] == "";
    }
  }

  /** The two replacements in a row never escape twice: together they escape character by character. */
  lemma {:induction false} TokenEscapes(s: string)
    ensures Token(s) == Escape(s)
  {
    if s != "" {
      var head := if s[0] == '~' then "~0" else [s[0]];
      ReplaceConcat(head, Replace(s[1..], '~', "~0"), '/', "~1");
      EscapesChar(s[0]);
      TokenEscapes(s[1..]);
    }
  }

  lemma UnescapeOne(c: char, rest: string)
    ensures Unescape(EscapeChar(c) + rest) == [c] + Unescape(rest)
  {
    var s := EscapeChar(c) + rest;
    if c == '~' || c == '/' {
      assert s[2..] == rest;
    } else {
      assert s[1..] == rest;
    }
  }

  lemma {:induction false} EscapeRoundTrip(s: string)
    ensures Unescape(Escape(s)) == s
    ensures '/' !in Escape(s)
  {
    if s != "" {
      EscapeRoundTrip(s[1..]);
      UnescapeOne(s[0], Escape(s[1..]));
    }
  }

  // ---------------------------------------------------------------- whole paths

  /** A path spelled from its reference tokens. */
  function Render(tokens: seq<string>): string {
    if tokens == [] then "" else "/" + Token(tokens[0]) + Render(tokens[1..])
  }

  function SlashIndex(s: string): (n: nat)
    ensures n <= |s| && '/' !in s[..n] && (n < |s| ==> s[n] == '/')
  {
    if s == "" || s[0] == '/' then 0
    else
      var n := SlashIndex(s[1..]);
      assert s[..n + 1] == [s[0]] + s[1..][..n];
      n + 1
  }

  /** Reading a path back, as section 4 of RFC 6901 evaluates it. */
  function Parse(path: string): seq<string>
    decreases |path|
  {
    if path == "" then []
    else
      var n := SlashIndex(path[1..]);
      [Unescape(path[1..][..n])] + Parse(path[1..][n..])
  }

  lemma {:induction false} SlashAfter(s: string, rest: string)
    requires '/' !in s && (rest == "" || rest[0] == '/')
    ensures SlashIndex(s + rest) == |s|
  {
    if s != "" {
      assert (s + rest)[1..] == s[1..] + rest;
      SlashAfter(s[1..], rest);
    } else {
      assert s + rest == rest;
    }
  }

  lemma ParseStep(s: string, rest: string)
    requires '/' !in s && (rest == "" || rest[0] == '/')
    ensures Parse("/" + s + rest) == [Unescape(s)] + Parse(rest)
  {
    hide Unescape;
    SlashAfter(s, rest);
    assert ("/" + s + rest)[1..] == s + rest;
    assert (s + rest)[..|s|] == s && (s + rest)[|s|..] == rest;
  }

  lemma {:induction false} ParseRenders(tokens: seq<string>)
    ensures Parse(Render(tokens)) == tokens
  {
    if tokens != [] {
      TokenEscapes(tokens[0]);
      EscapeRoundTrip(tokens[0]);
      ParseRenders(tokens[1..]);
      hide Token, Escape, Unescape, Parse;
      ParseStep(Token(tokens[0]), Render(tokens[1..]));
    }
  }

  /** Paths identify their token lists. */
  lemma PathsAreInjective(a: seq<string>, b: seq<string>)
    requires Render(a) == Render(b)
    ensures a == b
  {
    ParseRenders(a);
    ParseRenders(b);
  }
}
