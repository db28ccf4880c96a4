// base64.RawURLEncoding: the URL-safe alphabet of section 5 of RFC 4648, without the padding of section 3.2.
module Base64 {
  import opened Wrappers
  import opened GoStrings

  type Byte = n: int | 0 <= n < 256
  type Sextet = n: int | 0 <= n < 64

  // The character of a six-bit group, and back.
  function Char(n: Sextet): (c: char)
    ensures Value(c) == Some(n)
  {
    if n < 26 then ('A' as int + n) as char
    else if n < 52 then ('a' as int + n - 26) as char
    else if n < 62 then ('0' as int + n - 52) as char
    else if n == 62 then '-' else '_'
  }

  function Value(c: char): (r: Option<Sextet>)
    ensures r.Some? ==> !IsSpace(c)
  {
    if 'A' <= c <= 'Z' then Some(c as int - 'A' as int)
    else if 'a' <= c <= 'z' then Some(c as int - 'a' as int + 26)
    else if '0' <= c <= '9' then Some(c as int - '0' as int + 52)
    else if c == '-' then Some(62)
    else if c == '_' then Some(63)
    else None
  }

  // Three bytes are four six-bit groups; a short last group is filled up with zero bits.
  function Groups(bytes: seq<Byte>): seq<Sextet> {
    if bytes == [] then []
    else if |bytes| == 1 then [bytes[0] / 4, bytes[0] % 4 * 16]
    else if |bytes| == 2 then [bytes[0] / 4, bytes[0] % 4 * 16 + bytes[1] / 16, bytes[1] % 16 * 4]
    else
      [bytes[0] / 4, bytes[0] % 4 * 16 + bytes[1] / 16, bytes[1] % 16 * 4 + bytes[2] / 64, bytes[2] % 64]
      + Groups(bytes[3..])
  }

  function Ungroup(groups: seq<Sextet>): seq<Byte> {
    if |groups| < 2 then []
    else
      var a: int, b: int := groups[0], groups[1];
      var first := a * 4 + b / 16;
      if |groups| == 2 then [first]
      else
        var c: int := groups[2];
        var second := b % 16 * 16 + c / 4;
        if |groups| == 3 then [first, second]
        else
          var d: int := groups[3];
          [first, second, c % 4 * 64 + d] + Ungroup(groups[4..])
  }

  function Encode(bytes: seq<Byte>): string {
    var groups := Groups(bytes);
    seq(|groups|, i requires 0 <= i < |groups| => Char(groups[i]))
  }

  function Decode(s: string): Option<seq<Byte>> {
    if |s| % 4 == 1 || exists i | 0 <= i < |s| :: Value(s[i]).None? then None
    else Some(Ungroup(seq(|s|, i requires 0 <= i < |s| && Value(s[i]).Some? => Value(s[i]).value)))
  }

  lemma {:induction false} GroupsShape(bytes: seq<Byte>)
    ensures |Groups(bytes)| == (8 * |bytes| + 5) / 6
    ensures |Groups(bytes)| % 4 != 1
  {
    if |bytes| >= 3 {
      GroupsShape(bytes[3..]);
    }
  }

  lemma {:induction false} UngroupGroups(bytes: seq<Byte>)
    ensures Ungroup(Groups(bytes)) == bytes
  {
    if |bytes| >= 3 {
      UngroupGroups(bytes[3..]);
      assert Groups(bytes)[4..] == Groups(bytes[3..]);
      assert bytes == [bytes[0], bytes[1], bytes[2]] + bytes[3..];
      GroupsShape(bytes[3..]);
    }
  }

  lemma RoundTrip(bytes: seq<Byte>)
    ensures Decode(Encode(bytes)) == Some(bytes)
  {
    var s := Encode(bytes);
    GroupsShape(bytes);
    UngroupGroups(bytes);
    assert forall i | 0 <= i < |s| :: Value(s[i]) == Some(Groups(bytes)[i]);
    assert seq(|s|, i requires 0 <= i < |s| && Value(s[i]).Some? => Value(s[i]).value) == Groups(bytes);
  }

  // ---- The encoding itself ----

  // The alphabet of section 5 of RFC 4648.
  const UPPER := "ABCDEFGHIJKLMNOPQRSTUVWXYZ"
  const LOWER := "abcdefghijklmnopqrstuvwxyz"
  const DIGITS := "0123456789"
  const ALPHABET := UPPER + LOWER + DIGITS + "-_"

  lemma CharIsInAlphabet(n: Sextet)
    ensures |ALPHABET| == 64 && Char(n) == ALPHABET[n]
  {
    hide Value;
    if n < 26 { assert UPPER[n] as int == 'A' as int + n; }
    else if n < 52 { assert LOWER[n - 26] as int == 'a' as int + (n - 26); }
    else if n < 62 { assert DIGITS[n - 52] as int == '0' as int + (n - 52); }
  }

  lemma EncodeSays(bytes: seq<Byte>)
    ensures |Encode(bytes)| == |Groups(bytes)|
    ensures forall i | 0 <= i < |Groups(bytes)| :: Encode(bytes)[i] == ALPHABET[Groups(bytes)[i]]
  {
    hide Char;
    forall i | 0 <= i < |Groups(bytes)|
      ensures Char(Groups(bytes)[i]) == ALPHABET[Groups(bytes)[i]]
    {
      CharIsInAlphabet(Groups(bytes)[i]);
    }
  }

  // Read as numbers, the most significant first, three bytes and their four groups are the same; the groups of one or
  // two bytes at the end are these with zero bits behind them.
  lemma {:induction false} GroupsSay(bytes: seq<Byte>, i: nat)
    requires 3 * i < |bytes|
    ensures var g: seq<int>, b: seq<int> := Groups(bytes), bytes;
      if 3 * i + 2 < |b| then
        4 * i + 4 <= |g| &&
        ((g[4 * i] * 64 + g[4 * i + 1]) * 64 + g[4 * i + 2]) * 64 + g[4 * i + 3] ==
        (b[3 * i] * 256 + b[3 * i + 1]) * 256 + b[3 * i + 2]
      else if 3 * i + 1 < |b| then
        4 * i + 3 == |g| &&
        (g[4 * i] * 64 + g[4 * i + 1]) * 64 + g[4 * i + 2] == (b[3 * i] * 256 + b[3 * i + 1]) * 4
      else
        4 * i + 2 == |g| && g[4 * i] * 64 + g[4 * i + 1] == b[3 * i] * 16
  {
    if i > 0 {
      GroupsSay(bytes[3..], i - 1);
      assert Groups(bytes)[4..] == Groups(bytes[3..]);
    }
  }

  // A generated client secret: 43 characters that decode to the 32 random bytes and that the trim which reads
  // them back from the Secret leaves alone.
  lemma GeneratedSecretSurvives(bytes: seq<Byte>)
    requires |bytes| == 32
    ensures |Encode(bytes)| == 43
    ensures Decode(Encode(bytes)) == Some(bytes)
    ensures TrimSpace(Encode(bytes)) == Encode(bytes) != ""
  {
    RoundTrip(bytes);
    GroupsShape(bytes);
    var s := Encode(bytes);
    assert Value(s[0]).Some? && Value(s[42]).Some?;
  }

  // Two different draws never yield the same secret.
  lemma Injective(a: seq<Byte>, b: seq<Byte>)
    requires Encode(a) == Encode(b)
    ensures a == b
  {
    RoundTrip(a);
    RoundTrip(b);
  }
}
