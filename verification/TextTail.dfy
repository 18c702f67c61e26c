/**
 Keeping the tail of a terminal (`apps/daemon/src/tmux-runtime.ts` and `apps/daemon/src/screen-status-classifier.ts`):
 the last lines, then the last bytes of their UTF-8 form (RFC 3629, section 3), decoded again.
 */
module TextTail {
  import opened Wrappers

  type Byte = b: nat | b < 256
  type Scalar = c: nat | c < 0x110000 && !(0xD800 <= c < 0xE000)
  type Text = seq<Scalar>

  const NEWLINE: Scalar := 10
  const REPLACEMENT: Scalar := 0xFFFD

  // ---------------------------------------------------------------- UTF-8

  function Encode(c: Scalar): (bytes: seq<Byte>)
    ensures 1 <= |bytes| <= 4
  {
    if c < 0x80 then [c]
    else if c < 0x800 then [0xC0 + c / 64, 0x80 + c % 64]
    else if c < 0x10000 then [0xE0 + c / 4096, 0x80 + c / 64 % 64, 0x80 + c % 64]
    else [0xF0 + c / 262144, 0x80 + c / 4096 % 64, 0x80 + c / 64 % 64, 0x80 + c % 64]
  }

  function EncodeAll(text: Text): seq<Byte> {
    if text == [] then [] else Encode(text[0]) + EncodeAll(text[1..])
  }

  predicate Continuation(b: Byte) {
    0x80 <= b < 0xC0
  }

  ghost predicate Starts(bytes: seq<Byte>, c: Scalar) {
    Encode(c) <= bytes
  }

  /** The scalar the bytes begin with, if they begin with the encoding of one. */
  ghost function First(bytes: seq<Byte>): (c: Option<Scalar>)
    ensures c.Some? ==> Starts(bytes, c.value)
  {
    if exists c :: Starts(bytes, c) then var c :| Starts(bytes, c); Some(c) else None
  }

  /** Decoding with one replacement character for every byte that begins no encoding. */
  ghost function Decode(bytes: seq<Byte>): Text
    decreases |bytes|
  {
    if bytes == [] then []
    else if First(bytes).Some? then [First(bytes).value] + Decode(bytes[|Encode(First(bytes).value)|..])
    else [REPLACEMENT] + Decode(bytes[1..])
  }

  function Replacements(k: nat): (r: Text)
    ensures |r| == k
  {
    if k == 0 then [] else [REPLACEMENT] + Replacements(k - 1)
  }

  predicate AllContinue(bytes: seq<Byte>) {
    bytes == [] || (Continuation(bytes[0]) && AllContinue(bytes[1..]))
  }

  /** What an encoding spells. */
  function Spelled(bytes: seq<Byte>): int
    requires 1 <= |bytes|
  {
    if bytes[0] < 0x80 then bytes[0]
    else if bytes[0] < 0xE0 && |bytes| >= 2 then Part(bytes[0], 0xC0) * 64 + Part(bytes[1], 0x80)
    else if bytes[0] < 0xF0 && |bytes| >= 3 then Part(bytes[0], 0xE0) * 4096 + Part(bytes[1], 0x80) * 64 + Part(bytes[2], 0x80)
    else if |bytes| >= 4 then Part(bytes[0], 0xF0) * 262144 + Part(bytes[1], 0x80) * 4096 + Part(bytes[2], 0x80) * 64 + Part(bytes[3], 0x80)
    else -1
  }

  function Part(b: int, mark: int): int {
    b - mark
  }

  lemma {:induction false} SpelledEncode(c: Scalar, rest: seq<Byte>)
    ensures Spelled(Encode(c) + rest) == c
  {
    var a := c / 64;
    var b := a / 64;
    assert c == a * 64 + c % 64 && a == b * 64 + a % 64 && b == b / 64 * 64 + b % 64;
    assert b == c / 4096 && b / 64 == c / 262144;
  }

  /** No encoding begins another. */
  lemma {:induction false} FirstEncode(c: Scalar, rest: seq<Byte>)
    ensures First(Encode(c) + rest) == Some(c)
  {
    var bytes := Encode(c) + rest;
    assert Starts(bytes, c);
    var d := First(bytes).value;
    SpelledEncode(c, rest);
    SpelledEncode(d, bytes[|Encode(d)|..]);
    assert bytes == Encode(d) + bytes[|Encode(d)|..];
  }

  /** Every byte of an encoding but the first is a continuation byte. */
  lemma {:induction false} EncodeContinues(c: Scalar, i: nat)
    requires 0 < i < |Encode(c)|
    ensures Continuation(Encode(c)[i])
  {
  }

  lemma {:induction false} StrayFirst(bytes: seq<Byte>)
    requires bytes != [] && Continuation(bytes[0])
    ensures First(bytes) == None
  {
  }

  lemma {:induction false} DecodeOne(c: Scalar, rest: seq<Byte>)
    ensures Decode(Encode(c) + rest) == [c] + Decode(rest)
  {
    FirstEncode(c, rest);
    assert (Encode(c) + rest)[|Encode(c)|..] == rest;
  }

  lemma {:induction false} DecodeStrayOne(b: Byte, rest: seq<Byte>)
    requires Continuation(b)
    ensures Decode([b] + rest) == [REPLACEMENT] + Decode(rest)
  {
    StrayFirst([b] + rest);
    assert ([b] + rest)[1..] == rest;
  }

  lemma {:induction false} DecodeEncode(text: Text)
    ensures Decode(EncodeAll(text)) == text
  {
    if text != [] {
      DecodeOne(text[0], EncodeAll(text[1..]));
      DecodeEncode(text[1..]);
    }
  }

  lemma {:induction false} Regroup(first: Scalar, k: nat, text: Text)
    requires k > 0 && first == REPLACEMENT
    ensures [first] + (Replacements(k - 1) + text) == Replacements(k) + text
  {
  }

  /** Stray continuation bytes in front decode to one replacement each. */
  lemma {:induction false} DecodeStray(stray: seq<Byte>, text: Text)
    requires AllContinue(stray)
    ensures Decode(stray + EncodeAll(text)) == Replacements(|stray|) + text
    decreases |stray|
  {
    if stray == [] {
      assert stray + EncodeAll(text) == EncodeAll(text);
      DecodeEncode(text);
    } else {
      Associates([stray[0]], stray[1..], EncodeAll(text));
      assert [stray[0]] + stray[1..] == stray;
      DecodeStrayOne(stray[0], stray[1..] + EncodeAll(text));
      DecodeStray(stray[1..], text);
      Regroup(REPLACEMENT, |stray|, text);
    }
  }

  lemma {:induction false} Associates(a: seq<Byte>, b: seq<Byte>, c: seq<Byte>)
    ensures a + (b + c) == (a + b) + c
  {
  }

  lemma {:induction false} EncodeAllJoins(a: Text, b: Text)
    ensures EncodeAll(a + b) == EncodeAll(a) + EncodeAll(b)
  {
    if a == [] {
      assert a + b == b;
    } else {
      EncodeAllJoins(a[1..], b);
      assert (a + b)[0] == a[0] && (a + b)[1..] == a[1..] + b;
      Associates(Encode(a[0]), EncodeAll(a[1..]), EncodeAll(b));
    }
  }

  // ---------------------------------------------------------------- cutting

  /** Where the last `n` bytes of a text begin: the first scalar that is whole among them. */
  function CutAt(text: Text, n: nat): (i: nat)
    ensures i <= |text|
  {
    if |EncodeAll(text)| <= n || text == [] then 0 else 1 + CutAt(text[1..], n)
  }

  /** `replace(/^\uFFFD/, "")`. */
  function WithoutLeading(decoded: Text): Text {
    if decoded != [] && decoded[0] == REPLACEMENT then decoded[1..] else decoded
  }

  /** A text bounded to `n` bytes: as it is if it fits, else `subarray(length - n).toString("utf8")` without a leading replacement. */
  ghost function LastBytes(text: Text, n: nat): Text {
    if |EncodeAll(text)| <= n then text else WithoutLeading(Decode(EncodeAll(text)[|EncodeAll(text)| - n..]))
  }

  /** The bytes left of the scalar that the cut goes through. */
  function Stray(text: Text, n: nat): int {
    n - |EncodeAll(text[CutAt(text, n)..])|
  }

  lemma {:induction false} TailOfJoin(a: seq<Byte>, b: seq<Byte>, n: nat)
    requires n <= |a| + |b|
    ensures n <= |b| ==> (a + b)[|a + b| - n..] == b[|b| - n..]
    ensures |b| <= n ==> (a + b)[|a + b| - n..] == a[|a| + |b| - n..] + b
  {
  }

  /** The end of an encoding that lacks its first byte is made of continuation bytes. */
  lemma {:induction false} StrayContinues(c: Scalar, k: nat)
    requires k < |Encode(c)|
    ensures AllContinue(Encode(c)[|Encode(c)| - k..])
  {
    var bytes := Encode(c);
    if k > 0 {
      StrayContinues(c, k - 1);
      EncodeContinues(c, |bytes| - k);
      assert bytes[|bytes| - k..][1..] == bytes[|bytes| - (k - 1)..];
    }
  }

  /** The last `n` bytes of `text` are at most three continuation bytes and everything from index `i`. */
  ghost predicate CutsTo(text: Text, n: nat, i: nat, stray: seq<Byte>) {
    && 0 < i <= |text| && AllContinue(stray) && |stray| <= 3 && n <= |EncodeAll(text)|
    && EncodeAll(text)[|EncodeAll(text)| - n..] == stray + EncodeAll(text[i..])
  }

  lemma {:induction false} EncodeAllCons(c: Scalar, rest: Text)
    ensures EncodeAll([c] + rest) == Encode(c) + EncodeAll(rest)
  {
    assert ([c] + rest)[1..] == rest;
  }

  lemma {:induction false} CutHere(c: Scalar, rest: Text, n: nat) returns (stray: seq<Byte>)
    requires |EncodeAll(rest)| <= n < |Encode(c)| + |EncodeAll(rest)|
    ensures CutsTo([c] + rest, n, 1, stray) && |stray| == n - |EncodeAll(rest)|
  {
    EncodeAllCons(c, rest);
    TailOfJoin(Encode(c), EncodeAll(rest), n);
    StrayContinues(c, n - |EncodeAll(rest)|);
    stray := Encode(c)[|Encode(c)| + |EncodeAll(rest)| - n..];
    assert ([c] + rest)[1..] == rest;
  }

  lemma {:induction false} CutLater(c: Scalar, rest: Text, n: nat, i: nat, stray: seq<Byte>)
    requires n < |EncodeAll(rest)| && CutsTo(rest, n, i, stray)
    ensures CutsTo([c] + rest, n, i + 1, stray)
  {
    EncodeAllCons(c, rest);
    TailOfJoin(Encode(c), EncodeAll(rest), n);
    assert ([c] + rest)[i + 1..] == rest[i..];
  }

  lemma {:induction false} CutAtLater(text: Text, n: nat)
    requires text != [] && n < |EncodeAll(text[1..])|
    ensures CutAt(text, n) == 1 + CutAt(text[1..], n) && Stray(text, n) == Stray(text[1..], n)
  {
    assert text[1..][CutAt(text[1..], n)..] == text[1 + CutAt(text[1..], n)..];
  }

  lemma {:induction false} CutAtHere(text: Text, n: nat)
    requires text != [] && |EncodeAll(text[1..])| <= n < |EncodeAll(text)|
    ensures CutAt(text, n) == 1 && Stray(text, n) == n - |EncodeAll(text[1..])|
  {
    assert CutAt(text[1..], n) == 0;
  }

  lemma {:induction false} CutBytes(text: Text, n: nat) returns (stray: seq<Byte>)
    requires n < |EncodeAll(text)|
    ensures CutsTo(text, n, CutAt(text, n), stray) && |stray| == Stray(text, n)
    decreases |text|
  {
    var rest := text[1..];
    assert text == [text[0]] + rest;
    EncodeAllCons(text[0], rest);
    if n < |EncodeAll(rest)| {
      CutAtLater(text, n);
      stray := CutBytes(rest, n);
      CutLater(text[0], rest, n, CutAt(rest, n), stray);
    } else {
      CutAtHere(text, n);
      stray := CutHere(text[0], rest, n);
    }
  }

  lemma {:induction false} CutDecodes(text: Text, n: nat)
    requires n < |EncodeAll(text)|
    ensures 0 <= Stray(text, n) <= 3
    ensures Decode(EncodeAll(text)[|EncodeAll(text)| - n..]) == Replacements(Stray(text, n)) + text[CutAt(text, n)..]
  {
    var stray := CutBytes(text, n);
    DecodeStray(stray, text[CutAt(text, n)..]);
  }

  /** What is left after the cut: replacements for all but one of the stray bytes, then a true suffix of the text. */
  lemma {:induction false} LastBytesIsSuffix(text: Text, n: nat)
    requires n < |EncodeAll(text)|
    ensures var i, k := CutAt(text, n), Stray(text, n);
            && 0 <= k <= 3
            && (k > 0 ==> LastBytes(text, n) == Replacements(k - 1) + text[i..])
            && (k == 0 ==> LastBytes(text, n) == if i < |text| && text[i] == REPLACEMENT then text[i + 1..] else text[i..])
  {
    CutDecodes(text, n);
    LeadingDropped(Stray(text, n), text, CutAt(text, n));
  }

  lemma {:induction false} LeadingDropped(k: nat, text: Text, i: nat)
    requires i <= |text|
    ensures k > 0 ==> WithoutLeading(Replacements(k) + text[i..]) == Replacements(k - 1) + text[i..]
    ensures k == 0 ==>
              WithoutLeading(Replacements(k) + text[i..]) == if i < |text| && text[i] == REPLACEMENT then text[i + 1..] else text[i..]
  {
    var decoded := Replacements(k) + text[i..];
    if k > 0 {
      assert decoded[1..] == Replacements(k - 1) + text[i..];
    } else {
      assert decoded == text[i..];
      assert i < |text| ==> text[i..][0] == text[i] && text[i..][1..] == text[i + 1..];
    }
  }

  lemma {:induction false} ReplacementBytes(k: nat)
    ensures |EncodeAll(Replacements(k))| == 3 * k
  {
    if k > 0 {
      ReplacementBytes(k - 1);
      assert Replacements(k)[1..] == Replacements(k - 1);
    }
  }

  /** At most three bytes too many, and more than asked for exactly when the cut leaves two or three stray bytes. */
  lemma {:induction false} LastBytesBound(text: Text, n: nat)
    ensures |EncodeAll(LastBytes(text, n))| <= n + 3
    ensures |EncodeAll(LastBytes(text, n))| > n <==> n < |EncodeAll(text)| && Stray(text, n) >= 2
    ensures n < |EncodeAll(text)| && Stray(text, n) > 0 ==> |EncodeAll(LastBytes(text, n))| == n + 2 * Stray(text, n) - 3
  {
    if |EncodeAll(text)| > n {
      var i, k := CutAt(text, n), Stray(text, n);
      LastBytesIsSuffix(text, n);
      if k > 0 {
        EncodeAllJoins(Replacements(k - 1), text[i..]);
        ReplacementBytes(k - 1);
      } else if i < |text| && text[i] == REPLACEMENT {
        assert text[i..][1..] == text[i + 1..];
      }
    }
  }

  // ---------------------------------------------------------------- lines

  /** `split("\n")`. */
  function Lines(text: Text): (lines: seq<Text>)
    ensures lines != []
  {
    if text == [] then [[]]
    else
      var rest := Lines(text[1..]);
      if text[0] == NEWLINE then [[]] + rest else [[text[0]] + rest[0]] + rest[1..]
  }

  /** `join("\n")`. */
  function JoinLines(lines: seq<Text>): Text {
    if lines == [] then [] else if |lines| == 1 then lines[0] else lines[0] + [NEWLINE] + JoinLines(lines[1..])
  }

  function Newlines(text: Text): nat {
    if text == [] then 0 else (if text[0] == NEWLINE then 1 else 0) + Newlines(text[1..])
  }

  function Rows(text: Text): nat {
    if text == [] then 0 else |Lines(text)|
  }

  function LastLines(text: Text, n: nat): Text {
    var lines := Lines(text);
    JoinLines(if |lines| > n then lines[|lines| - n..] else lines)
  }

  lemma {:induction false} LinesCount(text: Text)
    ensures |Lines(text)| == Newlines(text) + 1
  {
    if text != [] { LinesCount(text[1..]); }
  }

  lemma {:induction false} JoinUndoesLines(text: Text)
    ensures JoinLines(Lines(text)) == text
  {
    if text != [] {
      var rest := Lines(text[1..]);
      JoinUndoesLines(text[1..]);
      if text[0] == NEWLINE {
        assert ([[]] + rest)[1..] == rest;
      } else {
        assert ([[text[0]] + rest[0]] + rest[1..])[1..] == rest[1..];
      }
    }
  }

  /** The lines from `k` on are the end of the text. */
  lemma {:induction false} LinesSuffix(text: Text, k: nat) returns (i: nat)
    requires k < |Lines(text)|
    ensures i <= |text| && JoinLines(Lines(text)[k..]) == text[i..] && Newlines(text[i..]) == |Lines(text)| - 1 - k
  {
    if k == 0 {
      i := 0;
      JoinUndoesLines(text);
      LinesCount(text);
      assert Lines(text)[0..] == Lines(text) && text[0..] == text;
    } else {
      var rest := Lines(text[1..]);
      var skip := if text[0] == NEWLINE then k - 1 else k;
      i := LinesSuffix(text[1..], skip);
      assert Lines(text)[k..] == rest[skip..] && text[1..][i..] == text[i + 1..];
      i := i + 1;
    }
  }

  /** The last lines are the end of the text, as many as asked for or as there are. */
  lemma {:induction false} LastLinesIsSuffix(text: Text, n: nat) returns (i: nat)
    requires n >= 1
    ensures i <= |text| && LastLines(text, n) == text[i..]
    ensures |Lines(LastLines(text, n))| == if |Lines(text)| > n then n else |Lines(text)|
    ensures i == 0 <==> |Lines(text)| <= n
  {
    var k := if |Lines(text)| > n then |Lines(text)| - n else 0;
    i := LinesSuffix(text, k);
    assert Lines(text)[0..] == Lines(text);
    LinesCount(text[i..]);
    LinesCount(text);
    assert i == 0 ==> text[i..] == text;
    if k == 0 {
      JoinUndoesLines(text);
      i := 0;
    }
  }

  lemma {:induction false} NewlinesJoin(a: Text, b: Text)
    ensures Newlines(a + b) == Newlines(a) + Newlines(b)
  {
    if a == [] {
      assert a + b == b;
    } else {
      NewlinesJoin(a[1..], b);
      assert (a + b)[1..] == a[1..] + b;
    }
  }

  lemma {:induction false} ReplacementLines(k: nat)
    ensures Newlines(Replacements(k)) == 0
  {
    if k > 0 {
      ReplacementLines(k - 1);
      assert Replacements(k)[1..] == Replacements(k - 1);
    }
  }

  lemma {:induction false} SuffixLines(text: Text, i: nat)
    requires i <= |text|
    ensures Newlines(text[i..]) <= Newlines(text)
  {
    assert text == text[..i] + text[i..];
    NewlinesJoin(text[..i], text[i..]);
  }

  /** Cutting bytes adds no line. */
  lemma {:induction false} LastBytesLines(text: Text, n: nat)
    ensures |Lines(LastBytes(text, n))| <= |Lines(text)|
  {
    LinesCount(text);
    LinesCount(LastBytes(text, n));
    if |EncodeAll(text)| > n {
      var i, k := CutAt(text, n), Stray(text, n);
      LastBytesIsSuffix(text, n);
      SuffixLines(text, i);
      if i < |text| { SuffixLines(text, i + 1); }
      if k > 0 {
        ReplacementLines(k - 1);
        NewlinesJoin(Replacements(k - 1), text[i..]);
      }
    }
  }

  // ---------------------------------------------------------------- what the callers do

  /** The scalar the bytes spell, if its encoding is what they begin with. */
  function Candidate(bytes: seq<Byte>): Option<Scalar> {
    var v := if bytes == [] then -1 else Spelled(bytes);
    if 0 <= v < 0x110000 && !(0xD800 <= v < 0xE000) && Encode(v) <= bytes then Some(v) else None
  }

  lemma {:induction false} CandidateIsFirst(bytes: seq<Byte>)
    ensures First(bytes) == Candidate(bytes)
  {
    if First(bytes).Some? {
      var c := First(bytes).value;
      SpelledEncode(c, bytes[|Encode(c)|..]);
      assert bytes == Encode(c) + bytes[|Encode(c)|..];
    } else if Candidate(bytes).Some? {
      assert Starts(bytes, Candidate(bytes).value);
    }
  }

  /** The next scalar and what follows it, or a replacement for a byte that begins none. */
  method DecodeNext(bytes: seq<Byte>) returns (c: Scalar, rest: seq<Byte>)
    requires bytes != []
    ensures Decode(bytes) == [c] + Decode(rest) && |rest| < |bytes|
  {
    var first := Candidate(bytes);
    CandidateIsFirst(bytes);
    if first.Some? {
      c, rest := first.value, bytes[|Encode(first.value)|..];
    } else {
      c, rest := REPLACEMENT, bytes[1..];
    }
  }

  method DecodeBytes(bytes: seq<Byte>) returns (text: Text)
    ensures text == Decode(bytes)
  {
    text := [];
    var rest := bytes;
    while rest != []
      invariant text + Decode(rest) == Decode(bytes)
      decreases |rest|
    {
      var c;
      c, rest := DecodeNext(rest);
      text := text + [c];
    }
  }

  /** The last lines of a text that has too many. */
  method TakeLines(text: Text, maxLines: nat) returns (taken: Text, truncated: bool)
    requires maxLines >= 1
    ensures taken == LastLines(text, maxLines) && |Lines(taken)| <= maxLines
    ensures truncated <==> |Lines(text)| > maxLines
    ensures !truncated ==> taken == text
  {
    var lines := Lines(text);
    var bounded := if |lines| > maxLines then lines[|lines| - maxLines..] else lines;
    taken := JoinLines(bounded);
    truncated := |bounded| != |lines|;
    ghost var i := LastLinesIsSuffix(text, maxLines);
    JoinUndoesLines(text);
  }

  /** The last bytes of a text that is too long. */
  method TakeBytes(text: Text, maxBytes: nat) returns (taken: Text, truncated: bool)
    ensures taken == LastBytes(text, maxBytes)
    ensures truncated <==> |EncodeAll(text)| > maxBytes
    ensures !truncated ==> taken == text
  {
    var encoded := EncodeAll(text);
    if |encoded| <= maxBytes { return text, false; }
    var decoded := DecodeBytes(encoded[|encoded| - maxBytes..]);
    return WithoutLeading(decoded), true;
  }

  const RETURN: Scalar := 13

  /** `replaceAll("\r\n", "\n")`: one pass, so of two returns before a newline the first stays. */
  function Unreturned(text: Text): Text {
    if text == [] then []
    else if |text| >= 2 && text[0] == RETURN && text[1] == NEWLINE then [NEWLINE] + Unreturned(text[2..])
    else [text[0]] + Unreturned(text[1..])
  }

  function Stripped(line: Text): Text {
    if line != [] && line[|line| - 1] == RETURN then line[..|line| - 1] else line
  }

  /** Every line but the last loses one return at its end, and nothing else changes. */
  ghost predicate LosesReturns(lines: seq<Text>, now: seq<Text>) {
    |now| == |lines| && forall i :: 0 <= i < |lines| ==> now[i] == if i < |lines| - 1 then Stripped(lines[i]) else lines[i]
  }

  lemma {:induction false} LosesInFront(line: Text, lines: seq<Text>, now: seq<Text>)
    requires LosesReturns(lines, now) && lines != []
    ensures LosesReturns([line] + lines, [Stripped(line)] + now)
  {
  }

  lemma {:induction false} LosesAtHead(c: Scalar, lines: seq<Text>, now: seq<Text>)
    requires LosesReturns(lines, now) && lines != [] && (c != RETURN || lines[0] != [] || |lines| == 1)
    ensures LosesReturns([[c] + lines[0]] + lines[1..], [[c] + now[0]] + now[1..])
  {
    HeadStripped(c, lines[0]);
  }

  lemma {:induction false} UnreturnedLines(text: Text)
    ensures LosesReturns(Lines(text), Lines(Unreturned(text)))
    decreases |text|
  {
    if text == [] {
    } else if |text| >= 2 && text[0] == RETURN && text[1] == NEWLINE {
      var rest := text[2..];
      UnreturnedLines(rest);
      LinesOfPair(rest);
      assert text == [RETURN, NEWLINE] + rest;
      LinesInFront(NEWLINE, Unreturned(rest));
      LosesInFront([RETURN], Lines(rest), Lines(Unreturned(rest)));
    } else {
      var rest := text[1..];
      UnreturnedLines(rest);
      LinesInFront(text[0], rest);
      LinesInFront(text[0], Unreturned(rest));
      assert text == [text[0]] + rest;
      FirstLineStarts(rest);
      if text[0] == NEWLINE { LosesInFront([], Lines(rest), Lines(Unreturned(rest))); }
      else { LosesAtHead(text[0], Lines(rest), Lines(Unreturned(rest))); }
    }
  }

  lemma {:induction false} LinesInFront(c: Scalar, rest: Text)
    ensures Lines([c] + rest) == if c == NEWLINE then [[]] + Lines(rest) else [[c] + Lines(rest)[0]] + Lines(rest)[1..]
  {
    assert ([c] + rest)[1..] == rest;
  }

  lemma {:induction false} LinesOfPair(rest: Text)
    ensures Lines([RETURN, NEWLINE] + rest) == [[RETURN]] + Lines(rest)
  {
    var tail, empty: Text := [NEWLINE] + rest, [];
    LinesInFront(NEWLINE, rest);
    LinesInFront(RETURN, tail);
    assert [RETURN, NEWLINE] + rest == [RETURN] + tail;
    assert Lines(tail)[0] == empty && Lines(tail)[1..] == Lines(rest) && [RETURN] + empty == [RETURN];
  }

  lemma {:induction false} HeadStripped(c: Scalar, line: Text)
    ensures line != [] || c != RETURN ==> Stripped([c] + line) == [c] + Stripped(line)
  {
  }

  /** A text with an empty first line and more after it begins with a newline. */
  lemma {:induction false} FirstLineStarts(text: Text)
    ensures |Lines(text)| > 1 && Lines(text)[0] == [] ==> text != [] && text[0] == NEWLINE
  {
  }

  /** The bounded part of `readTerminal`, for the positive limits its schema allows. */
  method ReadTail(captured: Text, maxLines: nat, maxBytes: nat) returns (text: Text, lineCount: nat, byteCount: nat, truncated: bool)
    requires maxLines >= 1
    ensures text == LastBytes(LastLines(Unreturned(captured), maxLines), maxBytes)
    ensures lineCount == Rows(text) <= maxLines && byteCount == |EncodeAll(text)| <= maxBytes + 3
    ensures truncated <==> |Lines(captured)| > maxLines || |EncodeAll(LastLines(Unreturned(captured), maxLines))| > maxBytes
    ensures !truncated ==> text == Unreturned(captured)
  {
    UnreturnedLines(captured);
    var lines, lineTruncated := TakeLines(Unreturned(captured), maxLines);
    var bounded, byteTruncated := TakeBytes(lines, maxBytes);
    text := bounded;
    LastBytesLines(lines, maxBytes);
    LastBytesBound(lines, maxBytes);
    lineCount := if text == [] then 0 else |Lines(text)|;
    byteCount := |EncodeAll(text)|;
    truncated := lineTruncated || byteTruncated;
  }

  const SCREEN_MAX_ROWS := 80
  const SCREEN_MAX_BYTES := 65536

  predicate Printable(c: Scalar) {
    c == 9 || c == 10 || c == 13 || (c >= 32 && c != 127)
  }

  function Sanitize(text: Text): (clean: Text)
    ensures forall c :: c in clean ==> c in text && Printable(c)
  {
    if text == [] then [] else (if Printable(text[0]) then [text[0]] else []) + Sanitize(text[1..])
  }

  /** `boundedText`. */
  method BoundedText(value: Text) returns (text: Text, rows: nat, bytes: nat, truncated: bool)
    ensures text == LastBytes(LastLines(Sanitize(value), SCREEN_MAX_ROWS), SCREEN_MAX_BYTES)
    ensures rows == Rows(text) <= SCREEN_MAX_ROWS && bytes == |EncodeAll(text)| <= SCREEN_MAX_BYTES + 3
    ensures truncated <==> |Lines(Sanitize(value))| > SCREEN_MAX_ROWS || |EncodeAll(LastLines(Sanitize(value), SCREEN_MAX_ROWS))| > SCREEN_MAX_BYTES
    ensures !truncated ==> text == Sanitize(value)
  {
    var clean := Sanitize(value);
    text, truncated := TakeLines(clean, SCREEN_MAX_ROWS);
    bytes := |EncodeAll(text)|;
    if bytes > SCREEN_MAX_BYTES {
      LastBytesLines(text, SCREEN_MAX_BYTES);
      LastBytesBound(text, SCREEN_MAX_BYTES);
      text, truncated := TakeBytes(text, SCREEN_MAX_BYTES);
      bytes := |EncodeAll(text)|;
    }
    rows := if text == [] then 0 else |Lines(text)|;
  }
}
