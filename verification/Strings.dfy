/** The string functions of Go's standard library the driver uses, and how they undo each other. */
module Strings {
  /** unicode.IsSpace. */
  predicate IsSpace(c: char) {
    var n := c as int;
    9 <= n <= 13 || n == 32 || n == 0x85 || n == 0xA0 || n == 0x1680 || 0x2000 <= n <= 0x200A
    || n == 0x2028 || n == 0x2029 || n == 0x202F || n == 0x205F || n == 0x3000
  }

  predicate OccursAt(s: string, sub: string, i: nat) {
    i + |sub| <= |s| && s[i..i + |sub|] == sub
  }

  lemma OccursLater(s: string, sub: string, i: nat)
    requires s != "" && !(sub <= s)
    ensures OccursAt(s, sub, i) <==> i > 0 && OccursAt(s[1..], sub, i - 1)
  {
    if i == 0 {
      assert |sub| <= |s| ==> s[0..|sub|] == s[..|sub|];
    } else if i + |sub| <= |s| {
      assert s[1..][i - 1..i - 1 + |sub|] == s[i..i + |sub|];
    }
  }

  lemma OccursFirst(s: string, sub: string)
    ensures OccursAt(s, sub, 0) <==> sub <= s
  {
    assert |sub| <= |s| ==> s[0..|sub|] == s[..|sub|];
  }

  /** strings.Index: the first occurrence, or -1. */
  function Index(s: string, sub: string): (r: int)
    ensures -1 <= r <= |s|
    ensures r >= 0 ==> OccursAt(s, sub, r)
    ensures forall i: nat :: OccursAt(s, sub, i) ==> 0 <= r <= i
  {
    OccursFirst(s, sub);
    if sub <= s then 0
    else if s == "" then -1
    else
      var r := Index(s[1..], sub);
      assert forall i: nat :: OccursAt(s, sub, i) <==> i > 0 && OccursAt(s[1..], sub, i - 1) by {
        forall i: nat ensures OccursAt(s, sub, i) <==> i > 0 && OccursAt(s[1..], sub, i - 1) {
          OccursLater(s, sub, i);
        }
      }
      if r < 0 then -1 else r + 1
  }

  predicate Contains(s: string, sub: string) {
    Index(s, sub) >= 0
  }

  /** strings.LastIndex for one character. */
  function LastIndex(s: string, c: char): (r: int)
    ensures -1 <= r < |s|
    ensures r >= 0 ==> s[r] == c
    ensures forall i | r < i < |s| :: s[i] != c
  {
    if s == "" then -1
    else if s[|s| - 1] == c then |s| - 1
    else LastIndex(s[..|s| - 1], c)
  }

  function TrimPrefix(s: string, prefix: string): string {
    if prefix <= s then s[|prefix|..] else s
  }

  predicate HasSuffix(s: string, suffix: string) {
    |suffix| <= |s| && s[|s| - |suffix|..] == suffix
  }

  function TrimSuffix(s: string, suffix: string): string {
    if HasSuffix(s, suffix) then s[..|s| - |suffix|] else s
  }

  function TrimLeft(s: string, c: char): string {
    if s != "" && s[0] == c then TrimLeft(s[1..], c) else s
  }

  function TrimRight(s: string, c: char): string {
    if s != "" && s[|s| - 1] == c then TrimRight(s[..|s| - 1], c) else s
  }

  /** strings.Trim with a cutset of one character. */
  function Trim(s: string, c: char): string {
    TrimRight(TrimLeft(s, c), c)
  }

  /** strings.Split with a separator that is not empty. */
  function Split(s: string, sep: string): (r: seq<string>)
    requires sep != ""
    ensures r != []
  {
    var i := Index(s, sep);
    if i < 0 then [s] else [s[..i]] + Split(s[i + |sep|..], sep)
  }

  function Join(parts: seq<string>, sep: string): string {
    if parts == [] then ""
    else if |parts| == 1 then parts[0]
    else parts[0] + sep + Join(parts[1..], sep)
  }

  /** strings.ReplaceAll of one character. */
  function ReplaceAll(s: string, c: char, replacement: string): string {
    if s == "" then "" else (if s[0] == c then replacement else [s[0]]) + ReplaceAll(s[1..], c, replacement)
  }

  predicate NoSpace(s: string) {
    forall i | 0 <= i < |s| :: !IsSpace(s[i])
  }

  predicate Word(s: string) {
    s != "" && NoSpace(s)
  }

  /** The length of the word `s` starts with. */
  function WordLength(s: string): (n: nat)
    ensures n <= |s| && (forall i | 0 <= i < n :: !IsSpace(s[i])) && (n < |s| ==> IsSpace(s[n]))
  {
    if s == "" || IsSpace(s[0]) then 0 else 1 + WordLength(s[1..])
  }

  /** strings.Fields: the maximal runs of characters that are not space. */
  function Fields(s: string): (r: seq<string>)
    ensures forall i | 0 <= i < |r| :: Word(r[i])
  {
    if s == "" then []
    else if IsSpace(s[0]) then Fields(s[1..])
    else [s[..WordLength(s)]] + Fields(s[WordLength(s)..])
  }

  // ----- Split and Join

  lemma IndexIs(s: string, sub: string, i: nat)
    requires OccursAt(s, sub, i) && forall j: nat | j < i :: !OccursAt(s, sub, j)
    ensures Index(s, sub) == i
  {
  }

  lemma OccursBehind(a: string, s: string, sub: string, i: nat)
    ensures OccursAt(a + s, sub, |a| + i) <==> OccursAt(s, sub, i)
  {
  }

  lemma SplitFree(s: string, sep: string)
    requires sep != ""
    ensures !Contains(s, sep) <==> |Split(s, sep)| == 1
    ensures !Contains(s, sep) ==> Split(s, sep) == [s]
  {
  }

  lemma CharOccurs(s: string, c: char, i: nat)
    ensures OccursAt(s, [c], i) <==> i < |s| && s[i] == c
  {
  }

  lemma ContainsChar(s: string, c: char)
    ensures Contains(s, [c]) <==> c in s
  {
    if Contains(s, [c]) {
      CharOccurs(s, c, Index(s, [c]));
    }
    if c in s {
      var i :| 0 <= i < |s| && s[i] == c;
      CharOccurs(s, c, i);
    }
  }

  lemma FirstChar(p: string, c: char, rest: string)
    requires c !in p
    ensures Index(p + [c] + rest, [c]) == |p|
    ensures Split(p + [c] + rest, [c]) == [p] + Split(rest, [c])
  {
    var s := p + [c] + rest;
    forall j: nat | j <= |p| ensures OccursAt(s, [c], j) <==> j == |p| {
      CharOccurs(s, c, j);
      assert j < |p| ==> s[j] == p[j];
    }
    IndexIs(s, [c], |p|);
    assert s[..|p|] == p && s[|p| + 1..] == rest;
  }

  /** Splitting at a one-character separator that no part contains gives the parts back. */
  lemma {:induction false} SplitJoin(parts: seq<string>, c: char)
    requires parts != [] && forall p | p in parts :: c !in p
    ensures Split(Join(parts, [c]), [c]) == parts
  {
    var p := parts[0];
    if |parts| == 1 {
      ContainsChar(p, c);
    } else {
      FirstChar(p, c, Join(parts[1..], [c]));
      SplitJoin(parts[1..], c);
    }
  }

  // ----- Fields

  lemma WordLengthIs(w: string, s: string)
    requires NoSpace(w) && (s != "" ==> IsSpace(s[0]))
    ensures WordLength(w + s) == |w|
  {
    assert forall i | 0 <= i < |w| :: (w + s)[i] == w[i];
    assert s != "" ==> (w + s)[|w|] == s[0];
  }

  lemma FieldsOfWord(w: string)
    requires Word(w)
    ensures Fields(w) == [w]
  {
    assert w + "" == w;
    WordLengthIs(w, "");
    assert w[..|w|] == w && w[|w|..] == "";
  }

  lemma LeadingWord(w: string, rest: string)
    requires Word(w) && rest != "" && IsSpace(rest[0])
    ensures Fields(w + rest) == [w] + Fields(rest)
  {
    var s := w + rest;
    WordLengthIs(w, rest);
    assert s[..|w|] == w && s[|w|..] == rest;
    assert s[0] == w[0];
  }

  /** A space separates fields. */
  lemma {:induction false} FieldsApart(a: string, space: char, b: string)
    requires IsSpace(space)
    ensures Fields(a + [space] + b) == Fields(a) + Fields(b)
    decreases |a|
  {
    var s := a + [space] + b;
    if a == "" {
      assert s[1..] == b;
    } else if IsSpace(a[0]) {
      assert s[1..] == a[1..] + [space] + b;
      FieldsApart(a[1..], space, b);
    } else {
      var n := WordLength(a);
      var w, tail := a[..n], a[n..];
      assert s == w + (tail + [space] + b);
      LeadingWord(w, tail + [space] + b);
      FieldsApart(tail, space, b);
      Associate(w, Fields(tail), Fields(b));
    }
  }

  lemma Associate<T>(x: T, y: seq<T>, z: seq<T>)
    ensures [x] + (y + z) == ([x] + y) + z
  {
  }

  lemma FieldsBySpace(a: string, b: string)
    ensures Fields(a + " " + b) == Fields(a) + Fields(b)
  {
    FieldsApart(a, ' ', b);
  }

  /** Words joined by spaces are the fields of the line. */
  lemma {:induction false} FieldsJoin(words: seq<string>)
    requires forall i | 0 <= i < |words| :: Word(words[i])
    ensures Fields(Join(words, " ")) == words
  {
    if words == [] {
    } else if |words| == 1 {
      FieldsOfWord(words[0]);
    } else {
      FieldsApart(words[0], ' ', Join(words[1..], " "));
      FieldsOfWord(words[0]);
      FieldsJoin(words[1..]);
      assert words == [words[0]] + words[1..];
    }
  }
}
