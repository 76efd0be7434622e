/** T-SQL quoting: names and strings that end up inside a script. */
module SqlQuoting {
  import opened Common

  /** strings.ReplaceAll(s, t, tt). */
  function Doubled(s: string, t: char): string {
    if s == [] then [] else (if s[0] == t then [t, t] else [s[0]]) + Doubled(s[1..], t)
  }

  function QuotedIdentifier(name: string): string {
    "[" + Doubled(name, ']') + "]"
  }

  function StringLiteral(s: string): string {
    "N'" + Doubled(s, '\'') + "'"
  }

  /**
   How the server reads the rest of a token that ends with t: a doubled t stands for itself, a single
   one ends the token. The result is what the token stands for and what follows it.
   */
  function Scan(s: string, t: char): Option<(string, string)>
    decreases |s|
  {
    if s == [] then None
    else if s[0] != t then Pushed(s[0], Scan(s[1..], t))
    else if |s| > 1 && s[1] == t then Pushed(t, Scan(s[2..], t))
    else Some(("", s[1..]))
  }

  function Pushed(c: char, scanned: Option<(string, string)>): Option<(string, string)> {
    match scanned
    case None => None
    case Some((value, rest)) => Some(([c] + value, rest))
  }

  function ScanIdentifier(s: string): Option<(string, string)> {
    if |s| > 0 && s[0] == '[' then Scan(s[1..], ']') else None
  }

  function ScanLiteral(s: string): Option<(string, string)> {
    if |s| > 1 && s[..2] == "N'" then Scan(s[2..], '\'') else None
  }

  /** A token closed with t is read back, up to its end and no further, exactly when what follows is not another t. */
  lemma {:induction false} DoubledIsReadBackIff(s: string, t: char, rest: string)
    ensures Scan(Doubled(s, t) + [t] + rest, t) == Some((s, rest)) <==> !(rest != [] && rest[0] == t)
  {
    var text := Doubled(s, t) + [t] + rest;
    if s == [] {
      assert text == [t] + rest;
      if rest != [] && rest[0] == t {
        assert text[1] == t;
        match Scan(text[2..], t)
        case None =>
        case Some((value, after)) => assert Scan(text, t) == Some(([t] + value, after));
      }
    } else {
      DoubledIsReadBackIff(s[1..], t, rest);
      var tail := Doubled(s[1..], t) + [t] + rest;
      assert s == [s[0]] + s[1..];
      if s[0] == t {
        assert text == [t, t] + tail && text[2..] == tail;
      } else {
        assert text == [s[0]] + tail && text[1..] == tail;
      }
      PushedIsInjective(s[0], Scan(tail, t), Some((s[1..], rest)));
    }
  }

  lemma PushedIsInjective(c: char, a: Option<(string, string)>, b: Option<(string, string)>)
    ensures Pushed(c, a) == Pushed(c, b) <==> a == b
  {
    if a.Some? && b.Some? {
      assert ([c] + a.value.0)[1..] == a.value.0 && ([c] + b.value.0)[1..] == b.value.0;
    }
  }

  /** Whatever the name, its quoted form is one token that stands for it. */
  lemma IdentifierIsReadBackIff(name: string, rest: string)
    ensures ScanIdentifier(QuotedIdentifier(name) + rest) == Some((name, rest)) <==> !(rest != [] && rest[0] == ']')
  {
    assert (QuotedIdentifier(name) + rest)[1..] == Doubled(name, ']') + "]" + rest;
    DoubledIsReadBackIff(name, ']', rest);
  }

  lemma LiteralIsReadBackIff(s: string, rest: string)
    ensures ScanLiteral(StringLiteral(s) + rest) == Some((s, rest)) <==> !(rest != [] && rest[0] == '\'')
  {
    var text := StringLiteral(s) + rest;
    assert text[..2] == "N'" && text[2..] == Doubled(s, '\'') + "'" + rest;
    DoubledIsReadBackIff(s, '\'', rest);
  }

  /** Two names never quote to the same text. */
  lemma QuotingIsInjective(a: string, b: string)
    ensures QuotedIdentifier(a) == QuotedIdentifier(b) <==> a == b
    ensures StringLiteral(a) == StringLiteral(b) <==> a == b
  {
    IdentifierIsReadBackIff(a, "");
    IdentifierIsReadBackIff(b, "");
    LiteralIsReadBackIff(a, "");
    LiteralIsReadBackIff(b, "");
    assert QuotedIdentifier(a) + "" == QuotedIdentifier(a) && QuotedIdentifier(b) + "" == QuotedIdentifier(b);
    assert StringLiteral(a) + "" == StringLiteral(a) && StringLiteral(b) + "" == StringLiteral(b);
  }
}
