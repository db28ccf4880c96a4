// The few functions of Go's `strings` and `unicode` packages the operator relies on.
module GoStrings {
  predicate IsSpace(c: char) {
    var n := c as int;
    9 <= n <= 13 || n == 0x20 || n == 0x85 || n == 0xA0 || n == 0x1680 || 0x2000 <= n <= 0x200A ||
    n == 0x2028 || n == 0x2029 || n == 0x202F || n == 0x205F || n == 0x3000
  }

  predicate AllSpace(s: string) {
    forall i | 0 <= i < |s| :: IsSpace(s[i])
  }

  predicate Trimmed(s: string) {
    s == "" || (!IsSpace(s[0]) && !IsSpace(s[|s| - 1]))
  }

  // strings.TrimSpace: `t` is the part of `s` left when the white space on both ends is gone.
  function TrimSpace(s: string): (t: string)
    ensures Trimmed(t)
    ensures Trimmed(s) ==> t == s
    ensures t == "" <==> AllSpace(s)
    decreases |s|
  {
    if s == "" then ""
    else if IsSpace(s[0]) then
      assert s == [s[0]] + s[1..];
      TrimSpace(s[1..])
    else if IsSpace(s[|s| - 1]) then TrimSpace(s[..|s| - 1])
    else s
  }

  predicate Blank(s: string) {
    TrimSpace(s) == ""
  }

  // Only white space is cut off, and only at the ends.
  lemma {:induction false} TrimCutsEnds(s: string) returns (before: string, after: string)
    ensures AllSpace(before) && AllSpace(after) && s == before + TrimSpace(s) + after
    decreases |s|
  {
    if s != "" && IsSpace(s[0]) {
      var front;
      front, after := TrimCutsEnds(s[1..]);
      before := [s[0]] + front;
      SpaceJoin([s[0]], front);
      assert s == [s[0]] + s[1..];
      hide AllSpace;
      assert TrimSpace(s) == TrimSpace(s[1..]);
      Regroup([s[0]], front, TrimSpace(s), after);
    } else if s != "" && IsSpace(s[|s| - 1]) {
      var back;
      before, back := TrimCutsEnds(s[..|s| - 1]);
      after := back + [s[|s| - 1]];
      SpaceJoin(back, [s[|s| - 1]]);
      assert s == s[..|s| - 1] + [s[|s| - 1]];
      hide AllSpace;
      assert TrimSpace(s) == TrimSpace(s[..|s| - 1]);
      assert before + TrimSpace(s) + back + [s[|s| - 1]] == before + TrimSpace(s) + after;
    } else {
      before, after := "", "";
    }
  }

  lemma SpaceJoin(a: string, b: string)
    requires AllSpace(a) && AllSpace(b)
    ensures AllSpace(a + b)
  {
  }

  lemma Regroup(a: string, b: string, c: string, d: string)
    ensures a + (b + c + d) == (a + b) + c + d
  {
  }

  predicate Slashes(s: string) {
    forall i | 0 <= i < |s| :: s[i] == '/'
  }

  predicate EndsWithSlash(s: string) {
    s != "" && s[|s| - 1] == '/'
  }

  // strings.TrimLeft(s, "/") and strings.TrimRight(s, "/").
  function TrimLeftSlash(s: string): (t: string)
    ensures t == "" || t[0] != '/'
  {
    if s != "" && s[0] == '/' then TrimLeftSlash(s[1..]) else s
  }

  function TrimRightSlash(s: string): (t: string)
    ensures t == "" || t[|t| - 1] != '/'
  {
    if s != "" && s[|s| - 1] == '/' then TrimRightSlash(s[..|s| - 1]) else s
  }

  lemma {:induction false} TrimLeftCuts(s: string) returns (before: string)
    ensures Slashes(before) && s == before + TrimLeftSlash(s)
  {
    before := "";
    if s != "" && s[0] == '/' {
      before := TrimLeftCuts(s[1..]);
      before := ['/'] + before;
    }
  }

  lemma {:induction false} TrimRightCuts(s: string) returns (after: string)
    ensures Slashes(after) && s == TrimRightSlash(s) + after
  {
    after := "";
    if EndsWithSlash(s) {
      after := TrimRightCuts(s[..|s| - 1]);
      after := after + ['/'];
    }
  }

  // A text before what is left does not matter.
  lemma {:induction false} TrimRightAppend(a: string, b: string)
    requires b != "" && !EndsWithSlash(TrimRightSlash(b)) && TrimRightSlash(b) != ""
    ensures TrimRightSlash(a + b) == a + TrimRightSlash(b)
  {
    if EndsWithSlash(b) {
      assert (a + b)[..|a + b| - 1] == a + b[..|b| - 1];
      TrimRightAppend(a, b[..|b| - 1]);
    }
  }

  lemma {:induction false} TrimRightDrops(a: string, slashes: string)
    requires Slashes(slashes)
    ensures TrimRightSlash(a + slashes) == TrimRightSlash(a)
  {
    if slashes == "" {
      assert a + slashes == a;
    } else {
      assert (a + slashes)[..|a + slashes| - 1] == a + slashes[..|slashes| - 1];
      TrimRightDrops(a, slashes[..|slashes| - 1]);
    }
  }

  // strings.Split(s, ",") and strings.Join(parts, ",").
  function Split(s: string): (parts: seq<string>)
    ensures |parts| > 0
    ensures forall p | p in parts :: ',' !in p
  {
    if s == "" then [""]
    else
      var rest := Split(s[1..]);
      if s[0] == ',' then [""] + rest else [[s[0]] + rest[0]] + rest[1..]
  }

  function Join(parts: seq<string>): string {
    if parts == [] then ""
    else if |parts| == 1 then parts[0]
    else parts[0] + "," + Join(parts[1..])
  }

  lemma {:induction false} SplitComma(head: string, tail: string)
    requires ',' !in head
    ensures Split(head + "," + tail) == [head] + Split(tail)
  {
    if head == "" {
      assert ("" + "," + tail)[1..] == tail;
    } else {
      SplitComma(head[1..], tail);
      assert (head + "," + tail)[1..] == head[1..] + "," + tail;
      assert head == [head[0]] + head[1..];
    }
  }

  lemma {:induction false} SplitPlain(s: string)
    requires ',' !in s
    ensures Split(s) == [s]
  {
    if s != "" {
      SplitPlain(s[1..]);
      assert s == [s[0]] + s[1..];
    }
  }

  lemma {:induction false} SplitJoin(parts: seq<string>)
    requires parts != []
    requires forall p | p in parts :: ',' !in p
    ensures Split(Join(parts)) == parts
  {
    if |parts| == 1 {
      SplitPlain(parts[0]);
    } else {
      SplitJoin(parts[1..]);
      SplitComma(parts[0], Join(parts[1..]));
      assert parts[0] + "," + Join(parts[1..]) == Join(parts);
    }
  }

  lemma {:induction false} JoinSplit(s: string)
    ensures Join(Split(s)) == s
  {
    if s != "" {
      var rest := Split(s[1..]);
      JoinSplit(s[1..]);
      assert s == [s[0]] + s[1..];
      if s[0] == ',' {
        assert ([""] + rest)[1..] == rest;
      } else {
        assert ([[s[0]] + rest[0]] + rest[1..])[1..] == rest[1..];
      }
    }
  }
}
