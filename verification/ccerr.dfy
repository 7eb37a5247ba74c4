/** The wire format of chaincode errors: "CODE: message", possibly behind "chaincode response NNN, ". */
module Ccerr {
  import opened Text

  const INVALID_ARGUMENT := "INVALID_ARGUMENT"
  const NOT_FOUND := "NOT_FOUND"
  const ALREADY_EXISTS := "ALREADY_EXISTS"
  const CONFLICT := "CONFLICT"
  const UNAUTHORIZED := "UNAUTHORIZED"
  const FAILED_PRECONDITION := "FAILED_PRECONDITION"

  const KNOWN: set<string> :=
    {INVALID_ARGUMENT, NOT_FOUND, ALREADY_EXISTS, CONFLICT, UNAUTHORIZED, FAILED_PRECONDITION}

  const RESPONSE_PREFIX := "chaincode response "

  datatype Error = Error(code: string, message: string) {
    function Render(): string {
      code + ": " + message
    }
  }

  datatype Parsed = Parsed(code: string, text: string, ok: bool)

  /** The message without a response prefix, which ends at the first ", ". */
  function StripResponse(prefix: string, m: string): string {
    if HasPrefix(m, prefix) then
      var i := Index(m, ", ");
      if i >= 0 then m[i + 2..] else m
    else m
  }

  function Parse(message: string): Parsed {
    ParseBy(KNOWN, RESPONSE_PREFIX, message)
  }

  /** Parsing, for any table of codes and any response prefix. */
  function ParseBy(known: set<string>, prefix: string, message: string): Parsed {
    var (head, rest, found) := Cut(StripResponse(prefix, TrimSpace(message)), ":");
    if !found then Parsed("", message, false)
    else
      var c := TrimSpace(head);
      if c !in known then Parsed("", message, false) else Parsed(c, TrimSpace(rest), true)
  }

  // ---- shape of the literals ----

  predicate CodeChar(c: char) {
    'A' <= c <= 'Z' || c == '_'
  }

  predicate CodeWord(c: string) {
    c != "" && forall i :: 0 <= i < |c| ==> CodeChar(c[i])
  }

  lemma KnownIsWord(c: string)
    requires c in KNOWN
    ensures CodeWord(c)
  {
  }

  ghost predicate CodeWords(known: set<string>) {
    forall c :: c in known ==> CodeWord(c)
  }

  lemma KnownAreWords()
    ensures CodeWords(KNOWN)
  {
    forall c | c in KNOWN ensures CodeWord(c) {
      KnownIsWord(c);
    }
  }

  lemma WordIsTrimmed(c: string)
    requires CodeWord(c)
    ensures TrimSpace(c) == c && ':' !in c && ',' !in c
  {
    TrimUnique("", c, "");
    assert "" + c + "" == c;
  }

  predicate PrefixShape(prefix: string) {
    prefix != "" && ',' !in prefix && !IsSpace(prefix[0]) && !CodeChar(prefix[0])
  }

  lemma ResponsePrefixShape()
    ensures PrefixShape(RESPONSE_PREFIX)
  {
  }

  // ---- cutting and stripping rendered errors ----

  /** The head of a "head:rest" text with no colon in the head is what Cut returns. */
  lemma CutAtColon(head: string, rest: string)
    requires ':' !in head
    ensures Cut(head + ":" + rest, ":") == (head, rest, true)
  {
    var m := head + ":" + rest;
    var i := Index(m, ":");
    OccursChar(m, ':', |head|);
    OccursChar(m, ':', i);
    assert forall j :: 0 <= j < |head| ==> m[j] == head[j];
    assert m[..|head|] == head && m[|head| + 1..] == rest;
  }

  /** Trimming a text that ends in "CODE: message" leaves everything up to the colon alone. */
  lemma RenderedTail(head: string, message: string)
    requires head != "" && !IsSpace(head[0])
    ensures TrimSpace(head + ": " + message) == head + ":" + TrimRight(" " + message)
    ensures TrimSpace(TrimRight(" " + message)) == TrimSpace(message)
  {
    assert head + ": " + message == (head + ":") + (" " + message);
    TrimBehindHead(head + ":", " " + message);
    TrimAfterTrimRight(" " + message);
    TrimLeadingSpace(message);
  }

  /** Where the first ", " is found behind a prefix without commas. */
  lemma FirstComma(prefix: string, number: string, tail: string)
    requires ',' !in prefix
    ensures Index(prefix + number + ", " + tail, ", ")
         == |prefix| + (if Contains(number, ", ") then Index(number, ", ") else |number|)
  {
    var m := prefix + number + ", " + tail;
    var p := |prefix|;
    var i := Index(m, ", ");
    var k := Index(number, ", ");
    CommaAt(prefix, number, tail, p + |number|);
    CommaAt(prefix, number, tail, i);
    CommaAt(prefix, number, tail, p + k);
  }

  /** Up to the separator, the only commas followed by a space are those of the number. */
  lemma CommaAt(prefix: string, number: string, tail: string, i: int)
    requires ',' !in prefix && i <= |prefix| + |number|
    ensures OccursAt(prefix + number + ", " + tail, ", ", i)
       <==> OccursAt(number, ", ", i - |prefix|) || i == |prefix| + |number|
  {
    var m := prefix + number + ", " + tail;
    OccursPair(m, ',', ' ', i);
    OccursPair(number, ',', ' ', i - |prefix|);
    if 0 <= i < |prefix| {
      assert m[i] == prefix[i];
    }
  }

  /** What of the response number stays in front of the message once the prefix is stripped. */
  function Spill(number: string): string {
    if Contains(number, ", ") then number[Index(number, ", ") + 2..] + ", " else ""
  }

  lemma StripNumbered(prefix: string, number: string, tail: string)
    requires PrefixShape(prefix)
    ensures StripResponse(prefix, prefix + number + ", " + tail) == Spill(number) + tail
  {
    var m := prefix + number + ", " + tail;
    FirstComma(prefix, number, tail);
    assert m[..|prefix|] == prefix;
    if Contains(number, ", ") {
      DropPrefix(prefix, number, ", " + tail, Index(number, ", ") + 2);
    } else {
      assert m[|prefix| + |number| + 2..] == tail;
    }
  }

  lemma DropPrefix(prefix: string, number: string, tail: string, n: nat)
    requires n <= |number|
    ensures (prefix + number + tail)[|prefix| + n..] == number[n..] + tail
  {
  }

  /** When part of the number survives in front of the code, cutting finds no code or keeps too much text. */
  lemma SpillSpoilsCut(spill: string, c: string, w: string)
    requires CodeWord(c) && (w != "" ==> !IsSpace(w[|w| - 1]))
    ensures var (head, rest, found) := Cut(spill + ", " + c + ":" + w, ":");
            !CodeWord(TrimSpace(head)) || |TrimSpace(rest)| > |w|
  {
    var m := spill + ", " + c + ":" + w;
    if ':' in spill {
      var k := ColonInSpill(spill, c, w);
      KeepsFrom(m[k + 1..], |spill| - k - 1, |w|);
    } else {
      WordIsTrimmed(c);
      var head := spill + ", " + c;
      CutAtColon(head, w);
      assert head[|spill|] == ',';
      CommaIsNotACode(head, |spill|);
    }
  }

  lemma ColonInSpill(spill: string, c: string, w: string) returns (k: nat)
    requires ':' in spill
    ensures k < |spill|
    ensures var m := spill + ", " + c + ":" + w; Cut(m, ":") == (m[..k], m[k + 1..], true)
  {
    var m := spill + ", " + c + ":" + w;
    var i :| 0 <= i < |spill| && spill[i] == ':';
    OccursChar(m, ':', i);
    assert m[i] == ':';
    k := Index(m, ":");
  }

  lemma CommaIsNotACode(head: string, k: nat)
    requires k < |head| && head[k] == ','
    ensures !CodeWord(TrimSpace(head))
  {
    var l, r := TrimSplit(head);
    var core := TrimSpace(head);
    assert forall i :: 0 <= i < |l| ==> head[i] == l[i];
    assert forall i :: 0 <= i < |r| ==> head[|l| + |core| + i] == r[i];
    assert core[k - |l|] == ',';
  }

  /** A text with a non-space at `k` that ends in a non-space keeps everything from `k` on. */
  lemma KeepsFrom(s: string, k: nat, n: nat)
    requires k + n < |s| && !IsSpace(s[k]) && !IsSpace(s[|s| - 1])
    ensures |TrimSpace(s)| > n
  {
    var l, r := TrimSplit(s);
    assert |l| <= k by {
      assert forall i :: 0 <= i < |l| ==> IsSpace(s[i]);
    }
    EndsWith(l + TrimSpace(s), r);
  }

  lemma EndsWith(s: string, r: string)
    ensures r != "" ==> (s + r)[|s + r| - 1] == r[|r| - 1]
  {
  }

  // ---- round trips ----

  lemma FirstCharDiffers(m: string, prefix: string)
    requires m != "" && prefix != "" && m[0] != prefix[0]
    ensures !HasPrefix(m, prefix)
  {
    assert |prefix| <= |m| ==> m[..|prefix|][0] == m[0];
  }

  /** What an error renders to parses back to its code and its trimmed message. */
  lemma ParseRendered(c: string, message: string)
    requires c in KNOWN
    ensures Parse(Error(c, message).Render()) == Parsed(c, TrimSpace(message), true)
  {
    KnownAreWords();
    ResponsePrefixShape();
    ParseRenderedBy(KNOWN, RESPONSE_PREFIX, c, message);
  }

  lemma ParseRenderedBy(known: set<string>, prefix: string, c: string, message: string)
    requires CodeWords(known) && c in known && PrefixShape(prefix)
    ensures ParseBy(known, prefix, Error(c, message).Render()) == Parsed(c, TrimSpace(message), true)
  {
    WordIsTrimmed(c);
    RenderedTail(c, message);
    var m := c + ":" + TrimRight(" " + message);
    assert m[0] == c[0];
    FirstCharDiffers(m, prefix);
    CutAtColon(c, TrimRight(" " + message));
  }

  /** Behind "chaincode response NNN, " the same round trip holds exactly when NNN has no ", " of its own. */
  lemma ParseWrapped(number: string, c: string, message: string)
    requires c in KNOWN
    ensures Parse(RESPONSE_PREFIX + number + ", " + Error(c, message).Render()) == Parsed(c, TrimSpace(message), true)
       <==> !Contains(number, ", ")
  {
    KnownAreWords();
    ResponsePrefixShape();
    ParseWrappedBy(KNOWN, RESPONSE_PREFIX, number, c, message);
  }

  lemma ParseWrappedBy(known: set<string>, prefix: string, number: string, c: string, message: string)
    requires CodeWords(known) && c in known && PrefixShape(prefix)
    ensures ParseBy(known, prefix, prefix + number + ", " + Error(c, message).Render()) == Parsed(c, TrimSpace(message), true)
       <==> !Contains(number, ", ")
  {
    var whole := prefix + number + ", " + Error(c, message).Render();
    var w := WrappedTrim(prefix, number, c, message, whole);
    StripNumbered(prefix, number, c + ":" + w);
    if !Contains(number, ", ") {
      assert Spill(number) + (c + ":" + w) == c + ":" + w;
      WordIsTrimmed(c);
      CutAtColon(c, w);
    } else {
      var spill := number[Index(number, ", ") + 2..];
      assert Spill(number) + (c + ":" + w) == spill + ", " + c + ":" + w;
      SpillSpoilsCut(spill, c, w);
    }
  }

  lemma WrappedTrim(prefix: string, number: string, c: string, message: string, whole: string) returns (w: string)
    requires PrefixShape(prefix) && whole == prefix + number + ", " + Error(c, message).Render()
    ensures TrimSpace(whole) == prefix + number + ", " + (c + ":" + w)
    ensures TrimSpace(w) == TrimSpace(message) && |TrimSpace(message)| <= |w|
    ensures w != "" ==> !IsSpace(w[|w| - 1])
  {
    var head := prefix + number + ", " + c;
    Regroup(prefix, number, c, ": ", message);
    assert head[0] == prefix[0];
    w := TrailingText(head, message, whole);
    Regroup(prefix, number, c, ":", w);
  }

  lemma TrailingText(head: string, message: string, whole: string) returns (w: string)
    requires head != "" && !IsSpace(head[0]) && whole == head + ": " + message
    ensures TrimSpace(whole) == head + ":" + w
    ensures TrimSpace(w) == TrimSpace(message) && |TrimSpace(message)| <= |w|
    ensures w != "" ==> !IsSpace(w[|w| - 1])
  {
    w := TrimRight(" " + message);
    RenderedTail(head, message);
    var r' := TrimRightSplit(" " + message);
    var l, r := TrimSplit(w);
  }

  lemma Regroup(prefix: string, number: string, c: string, sep: string, x: string)
    ensures prefix + number + ", " + (c + sep + x) == (prefix + number + ", " + c) + sep + x
  {
  }

  /** A parse that succeeds is stable: rendering it and parsing again changes nothing. */
  lemma ParseStable(message: string)
    requires Parse(message).ok
    ensures Parse(Error(Parse(message).code, Parse(message).text).Render()) == Parse(message)
  {
    var p := Parse(message);
    ParseRendered(p.code, p.text);
    TrimIdempotent(Cut(StripResponse(RESPONSE_PREFIX, TrimSpace(message)), ":").1);
  }

  lemma TrimIdempotent(s: string)
    ensures TrimSpace(TrimSpace(s)) == TrimSpace(s)
  {
    var l, r := TrimSplit(s);
    TrimUnique("", TrimSpace(s), "");
    assert "" + TrimSpace(s) + "" == TrimSpace(s);
  }

  /** A parse succeeds exactly when it names a known code; a failed one hands its input back. */
  lemma ParseFailure(message: string)
    ensures Parse(message).ok <==> Parse(message).code in KNOWN
    ensures !Parse(message).ok ==> Parse(message) == Parsed("", message, false)
  {
    assert "" !in KNOWN;
  }
}
