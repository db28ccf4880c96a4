// The service-id pattern sent to CAS, read as the regular expression CAS takes it for.
module ServicePattern {
  import opened Wrappers

  // strings.ReplaceAll(value, ".", "[.]")
  function EscapeDots(value: string): string {
    if value == "" then ""
    else (if value[0] == '.' then "[.]" else [value[0]]) + EscapeDots(value[1..])
  }

  function RegistrationServiceId(fqdn: string, serviceName: string): string {
    "^https://((?i)" + EscapeDots(fqdn) + ")(:443)?/" + serviceName + "(/.*)?"
  }

  function UnescapeDots(p: string): string {
    if p == "" then ""
    else if |p| >= 3 && p[0] == '[' && p[1] == '.' && p[2] == ']' then "." + UnescapeDots(p[3..])
    else [p[0]] + UnescapeDots(p[1..])
  }

  // Escaping loses nothing, whatever the string holds.
  lemma {:induction false} UnescapeEscape(s: string)
    ensures UnescapeDots(EscapeDots(s)) == s
    ensures EscapeDots(s) == "" || EscapeDots(s)[0] != '.'
  {
    if s != "" {
      UnescapeEscape(s[1..]);
      var p := EscapeDots(s);
      assert s == [s[0]] + s[1..];
      assert p[if s[0] == '.' then 3 else 1..] == EscapeDots(s[1..]);
    }
  }

  lemma EscapeDotsInjective(a: string, b: string)
    requires EscapeDots(a) == EscapeDots(b)
    ensures a == b
  {
    UnescapeEscape(a);
    UnescapeEscape(b);
  }

  // ---- The fragment of regular expressions the pattern uses ----

  datatype Regex =
    Eps | Lit(c: char, fold: bool) | NotEol | Cat(head: Regex, tail: Regex) | Opt(body: Regex) | Star(body: Regex)

  function Lower(c: char): char {
    if 'A' <= c <= 'Z' then (c as int + 32) as char else c
  }

  predicate EqualFold(s: string, t: string) {
    |s| == |t| && forall i | 0 <= i < |s| :: Lower(s[i]) == Lower(t[i])
  }

  // What the dot does not match.
  predicate IsEol(c: char) {
    c == '\n' || c == '\r' || c as int == 0x85 || c as int == 0x2028 || c as int == 0x2029
  }

  ghost predicate Matches(r: Regex, s: string)
    decreases r, |s|
  {
    match r
    case Eps => s == ""
    case Lit(c, fold) => |s| == 1 && (if fold then Lower(s[0]) == Lower(c) else s[0] == c)
    case NotEol => |s| == 1 && !IsEol(s[0])
    case Cat(head, tail) => exists i | 0 <= i <= |s| :: Matches(head, s[..i]) && Matches(tail, s[i..])
    case Opt(body) => s == "" || Matches(body, s)
    case Star(body) => s == "" || exists i | 0 < i <= |s| :: Matches(body, s[..i]) && Matches(r, s[i..])
  }

  // ---- A parser for that fragment ----

  predicate Meta(c: char) {
    c == '^' || c == '$' || c == '.' || c == '|' || c == '?' || c == '*' || c == '+' || c == '\\' ||
    c == '(' || c == ')' || c == '[' || c == ']' || c == '{' || c == '}'
  }

  // A concatenation up to a closing parenthesis or the end; "(?i)" turns on case folding for the rest of it.
  function ParseSeq(p: string, fold: bool): (r: Option<(Regex, string)>)
    ensures r.Some? ==> |r.value.1| <= |p|
    decreases |p|, 1
  {
    if p == "" || p[0] == ')' then Some((Eps, p))
    else if |p| >= 4 && p[..4] == "(?i)" then ParseSeq(p[4..], true)
    else
      match ParseAtom(p, fold)
      case None => None
      case Some((atom, rest)) =>
        if rest != "" && rest[0] == '?' then Prefix(Opt(atom), ParseSeq(rest[1..], fold))
        else if rest != "" && rest[0] == '*' then Prefix(Star(atom), ParseSeq(rest[1..], fold))
        else Prefix(atom, ParseSeq(rest, fold))
  }

  function Prefix(head: Regex, r: Option<(Regex, string)>): Option<(Regex, string)> {
    if r.None? then None else Some((Cat(head, r.value.0), r.value.1))
  }

  // A group, a class of one character, the dot, or a character standing for itself.
  function ParseAtom(p: string, fold: bool): (r: Option<(Regex, string)>)
    requires p != ""
    ensures r.Some? ==> |r.value.1| < |p|
    decreases |p|, 0
  {
    if p[0] == '(' then
      match ParseSeq(p[1..], fold)
      case Some((body, rest)) => if rest != "" && rest[0] == ')' then Some((body, rest[1..])) else None
      case None => None
    else if p[0] == '[' then
      if |p| >= 3 && p[1] != '^' && p[1] != ']' && p[1] != '\\' && p[2] == ']' then Some((Lit(p[1], fold), p[3..]))
      else None
    else if p[0] == '.' then Some((NotEol, p[1..]))
    else if Meta(p[0]) then None
    else Some((Lit(p[0], fold), p[1..]))
  }

  function Parse(p: string): Option<Regex> {
    if p == "" || p[0] != '^' then None
    else
      match ParseSeq(p[1..], false)
      case Some((r, rest)) => if rest == "" then Some(r) else None
      case None => None
  }

  // ---- Runs of characters ----

  // Characters that stand for themselves, and dots.
  predicate Word(s: string) {
    forall i | 0 <= i < |s| :: !Meta(s[i]) || s[i] == '.'
  }

  // The expression an escaped word is read as while "(?i)" is on, followed by `tail`.
  function Folded(s: string, tail: Regex): Regex {
    if s == "" then tail else Cat(Lit(s[0], true), Folded(s[1..], tail))
  }

  // The expression a word is read as when nothing is escaped: its dots match any character.
  function Raw(s: string, tail: Regex): Regex {
    if s == "" then tail else Cat(if s[0] == '.' then NotEol else Lit(s[0], false), Raw(s[1..], tail))
  }

  predicate NoQuantifier(p: string) {
    p == "" || (p[0] != '?' && p[0] != '*')
  }

  lemma Associative(a: string, b: string, c: string)
    ensures (a + b) + c == a + (b + c)
  {
  }

  lemma WordStart(s: string, rest: string)
    requires NoQuantifier(rest) && Word(s)
    ensures NoQuantifier(EscapeDots(s) + rest) && NoQuantifier(s + rest)
  {
    if s != "" {
      assert (EscapeDots(s) + rest)[0] == EscapeDots(s)[0] && (s + rest)[0] == s[0];
    }
  }

  lemma EscapeHead(s: string)
    requires s != ""
    ensures EscapeDots(s) == EscapeDots([s[0]]) + EscapeDots(s[1..])
  {
    assert [s[0]][1..] == "";
  }

  lemma ParseFoldedChar(c: char, q: string)
    requires (!Meta(c) || c == '.') && NoQuantifier(q)
    ensures ParseSeq(EscapeDots([c]) + q, true) == Prefix(Lit(c, true), ParseSeq(q, true))
  {
    var p := EscapeDots([c]) + q;
    assert EscapeDots([c]) == if c == '.' then "[.]" else [c];
    assert |p| >= 4 ==> p[..4][0] == p[0];
    assert ParseAtom(p, true) == Some((Lit(c, true), q)) by {
      if c == '.' {
        assert p[0] == '[' && p[1] == '.' && p[2] == ']' && p[3..] == q;
      } else {
        assert p[0] == c && p[1..] == q;
      }
    }
  }

  lemma {:induction false} ParseFolded(s: string, rest: string, r: Regex, end: string)
    requires Word(s) && NoQuantifier(rest) && ParseSeq(rest, true) == Some((r, end))
    ensures ParseSeq(EscapeDots(s) + rest, true) == Some((Folded(s, r), end))
  {
    if s == "" {
      assert EscapeDots(s) + rest == rest;
    } else {
      EscapeHead(s);
      Associative(EscapeDots([s[0]]), EscapeDots(s[1..]), rest);
      WordStart(s[1..], rest);
      ParseFolded(s[1..], rest, r, end);
      ParseFoldedChar(s[0], EscapeDots(s[1..]) + rest);
    }
  }

  lemma ParseRawChar(c: char, q: string)
    requires (!Meta(c) || c == '.') && NoQuantifier(q)
    ensures ParseSeq([c] + q, false) == Prefix(if c == '.' then NotEol else Lit(c, false), ParseSeq(q, false))
  {
    var p := [c] + q;
    assert |p| >= 4 ==> p[..4][0] == p[0];
    assert p[1..] == q;
  }

  lemma {:induction false} ParseRaw(s: string, rest: string, r: Regex, end: string)
    requires Word(s) && NoQuantifier(rest) && ParseSeq(rest, false) == Some((r, end))
    ensures ParseSeq(s + rest, false) == Some((Raw(s, r), end))
  {
    if s == "" {
      assert s + rest == rest;
    } else {
      assert s + rest == [s[0]] + (s[1..] + rest);
      WordStart(s[1..], rest);
      ParseRaw(s[1..], rest, r, end);
      ParseRawChar(s[0], s[1..] + rest);
    }
  }

  lemma MatchesOne(one: Regex, tail: Regex, t: string)
    requires one.Lit? || one.NotEol?
    ensures Matches(Cat(one, tail), t) <==> t != "" && Matches(one, t[..1]) && Matches(tail, t[1..])
  {
    var r := Cat(one, tail);
    if Matches(r, t) {
      var i :| 0 <= i <= |t| && Matches(r.head, t[..i]) && Matches(r.tail, t[i..]);
      assert i == 1;
    }
  }

  lemma {:induction false} MatchesFolded(s: string, tail: Regex, t: string)
    ensures Matches(Folded(s, tail), t) <==> |t| >= |s| && EqualFold(t[..|s|], s) && Matches(tail, t[|s|..])
  {
    if s == "" {
      assert t[0..] == t;
    } else {
      MatchesOne(Lit(s[0], true), Folded(s[1..], tail), t);
      if t != "" {
        MatchesFolded(s[1..], tail, t[1..]);
        if |t| >= |s| {
          assert t[1..][|s| - 1..] == t[|s|..];
          assert t[..|s|] == [t[0]] + t[1..][..|s| - 1];
          assert s == [s[0]] + s[1..];
        }
      }
    }
  }

  // `t` spells the word `s`, whose dots stand for any character that ends no line.
  predicate Wild(s: string, t: string) {
    |s| == |t| && forall i | 0 <= i < |s| :: if s[i] == '.' then !IsEol(t[i]) else t[i] == s[i]
  }

  lemma {:induction false} MatchesRaw(s: string, tail: Regex, t: string)
    ensures Matches(Raw(s, tail), t) <==> |t| >= |s| && Wild(s, t[..|s|]) && Matches(tail, t[|s|..])
  {
    if s == "" {
      assert t[0..] == t;
    } else {
      MatchesOne(if s[0] == '.' then NotEol else Lit(s[0], false), Raw(s[1..], tail), t);
      if t != "" {
        MatchesRaw(s[1..], tail, t[1..]);
        if |t| >= |s| {
          assert t[1..][|s| - 1..] == t[|s|..];
          assert t[..|s|] == [t[0]] + t[1..][..|s| - 1];
          assert s == [s[0]] + s[1..];
        }
      }
    }
  }

  predicate NoEol(s: string) {
    forall i | 0 <= i < |s| :: !IsEol(s[i])
  }

  lemma {:induction false} MatchesAny(s: string)
    ensures Matches(Star(NotEol), s) <==> NoEol(s)
  {
    if s != "" {
      MatchesAny(s[1..]);
      var r := Star(NotEol);
      assert s == [s[0]] + s[1..];
      if Matches(r, s) {
        var i :| 0 < i <= |s| && Matches(r.body, s[..i]) && Matches(r, s[i..]);
        assert i == 1;
      } else {
        assert !(Matches(r.body, s[..1]) && Matches(r, s[1..]));
      }
    }
  }

  // ---- The pattern of a registration ----

  const PATH_TAIL := Opt(Cat(Lit('/', false), Cat(Star(NotEol), Eps)))

  function AfterHost(consumer: string): Regex {
    Cat(Opt(Raw(":443", Eps)), Raw("/" + consumer, Cat(PATH_TAIL, Eps)))
  }

  function ServiceRegex(fqdn: string, consumer: string): Regex {
    Raw("https://", Cat(Folded(fqdn, Eps), AfterHost(consumer)))
  }

  // A group, plain or optional, whose inside has been parsed up to its closing parenthesis.
  lemma ParseGroup(inner: string, body: Regex, rest: string)
    requires inner != "" && inner[0] != '?' && NoQuantifier(rest)
    requires ParseSeq(inner, false) == Some((body, ")" + rest))
    ensures ParseSeq("(" + inner, false) == Prefix(body, ParseSeq(rest, false))
  {
    var p := "(" + inner;
    assert p[1..] == inner && p[1] == inner[0];
    assert |p| >= 4 ==> p[..4][1] == p[1];
    assert (")" + rest)[1..] == rest;
    assert ParseAtom(p, false) == Some((body, rest));
  }

  lemma ParseOptional(inner: string, body: Regex, rest: string)
    requires inner != "" && inner[0] != '?'
    requires ParseSeq(inner, false) == Some((body, ")" + ("?" + rest)))
    ensures ParseSeq("(" + inner, false) == Prefix(Opt(body), ParseSeq(rest, false))
  {
    var p := "(" + inner;
    assert p[1..] == inner && p[1] == inner[0];
    assert |p| >= 4 ==> p[..4][1] == p[1];
    assert (")" + ("?" + rest))[1..] == "?" + rest && ("?" + rest)[1..] == rest;
    assert ParseAtom(p, false) == Some((body, "?" + rest));
  }

  lemma ParseFold(inner: string)
    ensures ParseSeq("(?i)" + inner, false) == ParseSeq(inner, true)
  {
    var p := "(?i)" + inner;
    assert p[..4] == "(?i)" && p[4..] == inner;
  }

  lemma ParseTail()
    ensures ParseSeq("(/.*)?", false) == Some((Cat(PATH_TAIL, Eps), ""))
  {
    assert ParseSeq(")?", false) == Some((Eps, ")?"));
    assert ".*)?"[1..] == "*)?" && "*)?"[1..] == ")?";
    assert ParseSeq(".*)?", false) == Some((Cat(Star(NotEol), Eps), ")?"));
    assert "/.*)?"[1..] == ".*)?";
    assert ParseSeq("/.*)?", false) == Some((Cat(Lit('/', false), Cat(Star(NotEol), Eps)), ")?"));
    assert ")?" == ")" + ("?" + "");
    ParseOptional("/.*)?", PATH_TAIL.body, "");
    assert "(" + "/.*)?" == "(/.*)?";
  }

  lemma ParsePath(consumer: string)
    requires Word(consumer)
    ensures ParseSeq("/" + consumer + "(/.*)?", false) == Some((Raw("/" + consumer, Cat(PATH_TAIL, Eps)), ""))
  {
    ParseTail();
    ParseRaw("/" + consumer, "(/.*)?", Cat(PATH_TAIL, Eps), "");
  }

  lemma ParsePort(rest: string)
    ensures ParseSeq("(" + (":443" + (")" + ("?" + rest))), false) ==
            Prefix(Opt(Raw(":443", Eps)), ParseSeq(rest, false))
  {
    var close := ")" + ("?" + rest);
    assert ParseSeq(close, false) == Some((Eps, close));
    ParseRaw(":443", close, Eps, close);
    var inner := ":443" + close;
    assert inner[0] == ':';
    ParseOptional(inner, Raw(":443", Eps), rest);
  }

  lemma ParseHost(fqdn: string, rest: string)
    requires Word(fqdn) && NoQuantifier(rest)
    ensures ParseSeq("(" + ("(?i)" + (EscapeDots(fqdn) + (")" + rest))), false)
         == Prefix(Folded(fqdn, Eps), ParseSeq(rest, false))
  {
    ParseFolded(fqdn, ")" + rest, Eps, ")" + rest);
    ParseFold(EscapeDots(fqdn) + (")" + rest));
    ParseGroup("(?i)" + (EscapeDots(fqdn) + (")" + rest)), Folded(fqdn, Eps), rest);
  }

  lemma PatternPieces(fqdn: string, consumer: string)
    ensures RegistrationServiceId(fqdn, consumer) ==
            "^" + ("https://" + ("(" + ("(?i)" + (EscapeDots(fqdn) + (")" +
            ("(" + (":443" + (")" + ("?" + ("/" + consumer + "(/.*)?"))))))))))
  {
  }

  lemma PatternParses(fqdn: string, consumer: string)
    requires Word(fqdn) && Word(consumer)
    ensures Parse(RegistrationServiceId(fqdn, consumer)) == Some(ServiceRegex(fqdn, consumer))
  {
    var path := "/" + consumer;
    var rest := "(" + (":443" + (")" + ("?" + (path + "(/.*)?"))));
    var group := "(" + ("(?i)" + (EscapeDots(fqdn) + (")" + rest)));
    ParsePath(consumer);
    ParsePort(path + "(/.*)?");
    ParseHost(fqdn, rest);
    ParseRaw("https://", group, Cat(Folded(fqdn, Eps), AfterHost(consumer)), "");
    PatternPieces(fqdn, consumer);
    var inner := "https://" + group;
    assert ("^" + inner)[1..] == inner;
  }

  // ---- The addresses the pattern accepts ----

  // The part after host and port: the consumer, then nothing or a path without line terminators. With `exact`
  // the consumer has to be spelled as it is; without, its dots stand for any character.
  predicate PathOf(consumer: string, t: string, exact: bool) {
    var n := 1 + |consumer|;
    |t| >= n && t[0] == '/' && (if exact then t[1..n] == consumer else Wild(consumer, t[1..n])) &&
    (|t| == n || (t[n] == '/' && NoEol(t[n + 1..])))
  }

  predicate HasPrefix(s: string, prefix: string) {
    |s| >= |prefix| && s[..|prefix|] == prefix
  }

  // https, the host ignoring case, perhaps the default port, and the path.
  predicate Accepts(fqdn: string, consumer: string, url: string, exact: bool) {
    HasPrefix(url, "https://") &&
    var rest := url[8..];
    |rest| >= |fqdn| && EqualFold(rest[..|fqdn|], fqdn) &&
    var path := rest[|fqdn|..];
    PathOf(consumer, path, exact) || (HasPrefix(path, ":443") && PathOf(consumer, path[4..], exact))
  }

  lemma MatchesTail(t: string)
    ensures Matches(Cat(PATH_TAIL, Eps), t) <==> t == "" || (t[0] == '/' && NoEol(t[1..]))
  {
    var body := PATH_TAIL.body;
    if t != "" {
      MatchesOne(Lit('/', false), body.tail, t);
      MatchesEnd(Star(NotEol), t[1..]);
      MatchesAny(t[1..]);
    }
    MatchesEnd(PATH_TAIL, t);
  }

  lemma MatchesEnd(r: Regex, t: string)
    ensures Matches(Cat(r, Eps), t) <==> Matches(r, t)
  {
    assert t[..|t|] == t && t[|t|..] == "";
    if Matches(Cat(r, Eps), t) {
      var i :| 0 <= i <= |t| && Matches(r, t[..i]) && Matches(Eps, t[i..]);
      assert i == |t|;
    } else {
      assert !(Matches(r, t[..|t|]) && Matches(Eps, t[|t|..]));
    }
  }

  lemma MatchesPath(consumer: string, t: string)
    ensures Matches(Raw("/" + consumer, Cat(PATH_TAIL, Eps)), t) <==> PathOf(consumer, t, false)
  {
    var s := "/" + consumer;
    MatchesRaw(s, Cat(PATH_TAIL, Eps), t);
    if |t| >= |s| {
      MatchesTail(t[|s|..]);
      assert s[1..] == consumer && t[..|s|][1..] == t[1..|s|];
      assert t[|s|..] != "" ==> t[|s|..][1..] == t[|s| + 1..];
      assert t[..|s|] == [t[0]] + t[1..|s|];
    }
  }

  lemma MatchesAfterHost(consumer: string, t: string)
    ensures Matches(AfterHost(consumer), t) <==>
            PathOf(consumer, t, false) || (HasPrefix(t, ":443") && PathOf(consumer, t[4..], false))
  {
    var r := AfterHost(consumer);
    forall i | 0 <= i <= |t|
      ensures Matches(r.head, t[..i]) <==> i == 0 || (i == 4 && t[..4] == ":443")
      ensures Matches(r.tail, t[i..]) <==> PathOf(consumer, t[i..], false)
    {
      MatchesRaw(":443", Eps, t[..i]);
      MatchesPath(consumer, t[i..]);
      assert i == 4 ==> t[..i][..4] == t[..4] && t[..i][4..] == "";
      assert Wild(":443", t[..i]) ==> t[..i] == ":443";
    }
    assert t[0..] == t;
    if Matches(r, t) {
      var i :| 0 <= i <= |t| && Matches(r.head, t[..i]) && Matches(r.tail, t[i..]);
    }
    if PathOf(consumer, t, false) {
      assert Matches(r.head, t[..0]) && Matches(r.tail, t[0..]);
    }
    if HasPrefix(t, ":443") && PathOf(consumer, t[4..], false) {
      assert Matches(r.head, t[..4]) && Matches(r.tail, t[4..]);
    }
  }

  lemma MatchesHost(fqdn: string, tail: Regex, t: string)
    ensures Matches(Cat(Folded(fqdn, Eps), tail), t) <==>
            |t| >= |fqdn| && EqualFold(t[..|fqdn|], fqdn) && Matches(tail, t[|fqdn|..])
  {
    var r := Cat(Folded(fqdn, Eps), tail);
    forall i | 0 <= i <= |t|
      ensures Matches(r.head, t[..i]) <==> i == |fqdn| && EqualFold(t[..i], fqdn)
    {
      MatchesFolded(fqdn, Eps, t[..i]);
      assert i == |fqdn| ==> t[..i][..i] == t[..i] && t[..i][i..] == "";
    }
    if Matches(r, t) {
      var i :| 0 <= i <= |t| && Matches(r.head, t[..i]) && Matches(r.tail, t[i..]);
    }
    if |t| >= |fqdn| && EqualFold(t[..|fqdn|], fqdn) && Matches(tail, t[|fqdn|..]) {
      assert Matches(r.head, t[..|fqdn|]) && Matches(r.tail, t[|fqdn|..]);
    }
  }

  ghost predicate AcceptedBy(pattern: string, url: string) {
    Parse(pattern).Some? && Matches(Parse(pattern).value, url)
  }

  // What the pattern accepts as a whole address. Dots of the consumer are not escaped and stand for any character.
  lemma PatternAccepts(fqdn: string, consumer: string, url: string)
    requires Word(fqdn) && Word(consumer)
    ensures AcceptedBy(RegistrationServiceId(fqdn, consumer), url) <==> Accepts(fqdn, consumer, url, false)
  {
    PatternParses(fqdn, consumer);
    var afterScheme := Cat(Folded(fqdn, Eps), AfterHost(consumer));
    MatchesRaw("https://", afterScheme, url);
    if |url| >= 8 {
      assert Wild("https://", url[..8]) <==> url[..8] == "https://";
      MatchesHost(fqdn, AfterHost(consumer), url[8..]);
      if |url[8..]| >= |fqdn| {
        MatchesAfterHost(consumer, url[8..][|fqdn|..]);
      }
    }
  }

  lemma PathAt(path: string, other: string)
    requires path == "/" + other
    ensures |path| == 1 + |other| && path[0] == '/' && path[1..] == other && !HasPrefix(path, ":443")
  {
  }

  // A dot stands for any character.
  lemma DotAcceptsOther(fqdn: string, consumer: string, i: nat)
    requires i < |consumer| && consumer[i] == '.'
    ensures var url := "https://" + fqdn + ("/" + consumer[i := 'x']);
            Accepts(fqdn, consumer, url, false) && !Accepts(fqdn, consumer, url, true)
  {
    var other := consumer[i := 'x'];
    var path := "/" + other;
    PathAt(path, other);
    assert other[i] == 'x';
    assert Wild(consumer, other) && other != consumer;
    assert path[1..1 + |consumer|] == other;
    var url := "https://" + fqdn + path;
    assert url[..8] == "https://" && url[8..] == fqdn + path;
    assert (fqdn + path)[..|fqdn|] == fqdn && (fqdn + path)[|fqdn|..] == path;
  }

  lemma WildIsExact(fqdn: string, consumer: string)
    requires Word(fqdn) && Word(consumer)
    ensures (forall url :: Accepts(fqdn, consumer, url, false) <==> Accepts(fqdn, consumer, url, true)) <==>
            '.' !in consumer
  {
    if '.' in consumer {
      var i :| 0 <= i < |consumer| && consumer[i] == '.';
      DotAcceptsOther(fqdn, consumer, i);
    } else {
      forall t: string
        ensures Wild(consumer, t) <==> t == consumer
      {
      }
    }
  }

  // The pattern accepts exactly the addresses below the consumer, and no others, if and only if no dot is in it.
  lemma PatternExact(fqdn: string, consumer: string)
    requires Word(fqdn) && Word(consumer)
    ensures (forall url :: AcceptedBy(RegistrationServiceId(fqdn, consumer), url) <==>
            Accepts(fqdn, consumer, url, true)) <==>
            '.' !in consumer
  {
    hide Accepts, AcceptedBy, RegistrationServiceId;
    WildIsExact(fqdn, consumer);
    forall url
      ensures AcceptedBy(RegistrationServiceId(fqdn, consumer), url) <==> Accepts(fqdn, consumer, url, false)
    {
      PatternAccepts(fqdn, consumer, url);
    }
  }

  lemma LongerConsumerHasSlash(a: string, b: string, t: string)
    requires PathOf(a, t, true) && PathOf(b, t, true)
    ensures |a| < |b| ==> '/' in b
  {
    if |a| < |b| {
      assert b[|a|] == t[1 + |a|];
    }
  }

  lemma PathDeterminesConsumer(a: string, b: string, t: string)
    requires '/' !in a && '/' !in b
    requires PathOf(a, t, true) && PathOf(b, t, true)
    ensures a == b
  {
    LongerConsumerHasSlash(a, b, t);
    LongerConsumerHasSlash(b, a, t);
  }

  // Consumers without dots and slashes share no address.
  lemma DistinctConsumersDisjoint(fqdn: string, a: string, b: string, url: string)
    requires Word(fqdn) && Word(a) && Word(b) && '/' !in a && '/' !in b && '.' !in a && '.' !in b
    requires AcceptedBy(RegistrationServiceId(fqdn, a), url) && AcceptedBy(RegistrationServiceId(fqdn, b), url)
    ensures a == b
  {
    PatternAccepts(fqdn, a, url);
    PatternAccepts(fqdn, b, url);
    PatternExact(fqdn, a);
    PatternExact(fqdn, b);
    assert Accepts(fqdn, a, url, true) && Accepts(fqdn, b, url, true);
    var path := url[8..][|fqdn|..];
    if path[0] == '/' {
      PathDeterminesConsumer(a, b, path);
    } else {
      PathDeterminesConsumer(a, b, path[4..]);
    }
  }
}
