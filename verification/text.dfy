/** Go's `strings` functions used by the classifier, exact on sequences of characters. */
module Text {

  /** Go's `unicode.IsSpace`. */
  predicate IsSpace(c: char) {
    || '\t' <= c <= '\r'
    || c == ' '
    || c == '\U{85}' || c == '\U{A0}' || c == '\U{1680}' || c == '\U{2028}' || c == '\U{2029}'
    || c == '\U{202F}' || c == '\U{205F}' || c == '\U{3000}'
    || '\U{2000}' <= c <= '\U{200A}'
  }

  /** Lower-casing as far as ASCII phrases can see it: besides `A`-`Z`, only the Kelvin sign and the
      dotted capital I lower to an ASCII letter. */
  function LowerChar(c: char): (l: char)
    ensures !('A' <= l <= 'Z')
  {
    if 'A' <= c <= 'Z' then c - 'A' + 'a'
    else if c == '\U{212A}' then 'k'
    else if c == '\U{0130}' then 'i'
    else c
  }

  function ToLower(s: string): (r: string)
    ensures |r| == |s| && forall i :: 0 <= i < |s| ==> r[i] == LowerChar(s[i])
  {
    seq(|s|, i requires 0 <= i < |s| => LowerChar(s[i]))
  }

  // ---- searching ----

  predicate HasPrefix(s: string, prefix: string) {
    |prefix| <= |s| && s[..|prefix|] == prefix
  }

  predicate OccursAt(s: string, sub: string, i: int) {
    0 <= i <= |s| - |sub| && s[i..i + |sub|] == sub
  }

  lemma OccursChar(s: string, a: char, i: int)
    ensures OccursAt(s, [a], i) <==> 0 <= i < |s| && s[i] == a
  {
    if 0 <= i < |s| {
      assert s[i..i + 1] == [s[i]];
    }
  }

  lemma OccursPair(s: string, a: char, b: char, i: int)
    ensures OccursAt(s, [a, b], i) <==> 0 <= i < |s| - 1 && s[i] == a && s[i + 1] == b
  {
    if 0 <= i < |s| - 1 {
      assert s[i..i + 2] == [s[i], s[i + 1]];
    }
  }

  lemma OccursInTail(s: string, sub: string, i: int)
    requires 0 < i && s != ""
    ensures OccursAt(s, sub, i) <==> OccursAt(s[1..], sub, i - 1)
  {
    if i <= |s| - |sub| {
      assert s[i..i + |sub|] == s[1..][i - 1..i - 1 + |sub|];
    }
  }

  /** `strings.Index`: the first occurrence, or -1. */
  function Index(s: string, sub: string): (r: int)
    ensures r == -1 || OccursAt(s, sub, r)
    ensures forall i :: OccursAt(s, sub, i) ==> 0 <= r <= i
  {
    if |s| < |sub| then -1
    else if s[..|sub|] == sub then 0
    else
      var r := Index(s[1..], sub);
      assert forall i :: 0 < i ==> (OccursAt(s, sub, i) <==> OccursAt(s[1..], sub, i - 1)) by {
        forall i | 0 < i ensures OccursAt(s, sub, i) <==> OccursAt(s[1..], sub, i - 1) { OccursInTail(s, sub, i); }
      }
      if r == -1 then -1 else r + 1
  }

  predicate Contains(s: string, sub: string) {
    Index(s, sub) >= 0
  }

  ghost predicate Occurs(s: string, sub: string) {
    exists i :: OccursAt(s, sub, i)
  }

  lemma ContainsMeansOccurs(s: string, sub: string)
    ensures Contains(s, sub) <==> Occurs(s, sub)
  {
    if Contains(s, sub) {
      assert OccursAt(s, sub, Index(s, sub));
    }
  }

  /** Up to the end of Latin-1, the white space is the six ASCII characters, NEL and the no-break space. */
  lemma SpacesOfLatin1(c: char)
    requires c <= '\U{FF}'
    ensures IsSpace(c) <==> c in "\t\n\U{0B}\U{0C}\r \U{85}\U{A0}"
  {
    var spaces := "\t\n\U{0B}\U{0C}\r \U{85}\U{A0}";
    assert spaces[0] == '\t' && spaces[1] == '\n' && spaces[2] == '\U{0B}' && spaces[3] == '\U{0C}';
    assert spaces[4] == '\r' && spaces[5] == ' ' && spaces[6] == '\U{85}' && spaces[7] == '\U{A0}';
  }

  function TrimPrefix(s: string, prefix: string): string {
    if HasPrefix(s, prefix) then s[|prefix|..] else s
  }

  lemma CutBeforeFirst(s: string, sep: string, i: int)
    requires i == Index(s, sep) >= 0 && sep != ""
    ensures !Contains(s[..i], sep)
  {
    var j := Index(s[..i], sep);
    if j >= 0 {
      assert s[..i][j..j + |sep|] == s[j..j + |sep|];
      assert OccursAt(s, sep, j);
    }
  }

  /** `strings.Cut`: the text around the first separator; without one, the whole text and "". */
  function Cut(s: string, sep: string): (r: (string, string, bool))
    requires sep != ""
    ensures r.2 <==> Contains(s, sep)
    ensures r.2 ==> s == r.0 + sep + r.1 && !Contains(r.0, sep)
    ensures !r.2 ==> r.0 == s && r.1 == ""
  {
    var i := Index(s, sep);
    if i < 0 then (s, "", false)
    else
      CutBeforeFirst(s, sep, i);
      (s[..i], s[i + |sep|..], true)
  }

  /** Surrounding a text never hides a phrase inside it. */
  lemma ContainsInContext(left: string, s: string, right: string, sub: string)
    requires Contains(s, sub)
    ensures Contains(left + s + right, sub)
  {
    var i := Index(s, sub);
    assert OccursAt(left + s + right, sub, |left| + i);
  }

  // ---- trimming ----

  predicate AllSpace(s: string) {
    forall i :: 0 <= i < |s| ==> IsSpace(s[i])
  }

  predicate Trimmed(s: string) {
    s != "" ==> !IsSpace(s[0]) && !IsSpace(s[|s| - 1])
  }

  function TrimLeft(s: string): string {
    if s != "" && IsSpace(s[0]) then TrimLeft(s[1..]) else s
  }

  function TrimRight(s: string): string {
    if s != "" && IsSpace(s[|s| - 1]) then TrimRight(s[..|s| - 1]) else s
  }

  function TrimSpace(s: string): string {
    TrimRight(TrimLeft(s))
  }

  lemma {:induction false} TrimLeftSkips(l: string, x: string)
    requires AllSpace(l)
    ensures TrimLeft(l + x) == TrimLeft(x)
  {
    if l == "" {
      assert l + x == x;
    } else {
      TrimLeftSkips(l[1..], x);
      assert (l + x)[1..] == l[1..] + x;
    }
  }

  lemma {:induction false} TrimRightSkips(x: string, r: string)
    requires AllSpace(r)
    ensures TrimRight(x + r) == TrimRight(x)
  {
    if r == "" {
      assert x + r == x;
    } else {
      TrimRightSkips(x, r[..|r| - 1]);
      assert (x + r)[..|x + r| - 1] == x + r[..|r| - 1];
    }
  }

  /** TrimSpace removes white space at both ends and nothing else: the only trimmed core is the result. */
  lemma TrimUnique(l: string, core: string, r: string)
    requires AllSpace(l) && AllSpace(r) && Trimmed(core)
    ensures TrimSpace(l + core + r) == core
  {
    assert l + core + r == l + (core + r);
    TrimLeftSkips(l, core + r);
    if core == "" {
      assert core + r == r + "";
      TrimLeftSkips(r, "");
    } else {
      TrimRightSkips(core, r);
    }
  }

  /** Every text splits into white space, its trimmed core, and white space. */
  lemma {:induction false} TrimSplit(s: string) returns (l: string, r: string)
    ensures AllSpace(l) && AllSpace(r) && Trimmed(TrimSpace(s))
    ensures s == l + TrimSpace(s) + r
  {
    if s != "" && IsSpace(s[0]) {
      l, r := TrimSplit(s[1..]);
      l := [s[0]] + l;
    } else {
      l := "";
      r := TrimRightSplit(s);
    }
  }

  lemma {:induction false} TrimRightSplit(s: string) returns (r: string)
    ensures AllSpace(r) && s == TrimRight(s) + r
    ensures TrimRight(s) != "" ==> !IsSpace(TrimRight(s)[|TrimRight(s)| - 1])
  {
    if s != "" && IsSpace(s[|s| - 1]) {
      r := TrimRightSplit(s[..|s| - 1]);
      r := r + [s[|s| - 1]];
    } else {
      r := "";
    }
  }

  /** Behind a head that neither starts nor ends with white space, only the far end is trimmed. */
  lemma {:induction false} TrimBehindHead(head: string, s: string)
    requires head != "" && Trimmed(head)
    ensures TrimSpace(head + s) == head + TrimRight(s)
    decreases |s|
  {
    if s != "" && IsSpace(s[|s| - 1]) {
      TrimBehindHead(head, s[..|s| - 1]);
      assert (head + s)[..|head + s| - 1] == head + s[..|s| - 1];
      TrimRightSkips(head + s[..|s| - 1], [s[|s| - 1]]);
      assert head + s == (head + s[..|s| - 1]) + [s[|s| - 1]];
    } else if s == "" {
      assert head + s == head;
    }
  }

  lemma TrimAfterTrimRight(s: string)
    ensures TrimSpace(TrimRight(s)) == TrimSpace(s)
  {
    var r := TrimRightSplit(s);
    var l, r' := TrimSplit(TrimRight(s));
    assert s == l + TrimSpace(TrimRight(s)) + (r' + r);
    TrimUnique(l, TrimSpace(TrimRight(s)), r' + r);
  }

  lemma TrimLeadingSpace(s: string)
    ensures TrimSpace(" " + s) == TrimSpace(s)
  {
    TrimLeftSkips(" ", s);
  }
}
