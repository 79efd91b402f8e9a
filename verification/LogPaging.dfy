/// Paging of command logs in cmd/agent/command_sessions.go: `readLog`,
/// `readCompatibilityLog` and `readSeparateLogs` over finished log files.
/// Characters are those of section 4 of RFC 3629.

module LogPaging {
  import opened Wrappers

  /** A byte; integers outside 0..255 behave like any other byte that starts no character. */
  type Byte = int

  function Min(a: int, b: int): int { if a < b then a else b }

  // ---------- UTF-8 ----------

  predicate Continuation(b: Byte) {
    0x80 <= b <= 0xBF
  }

  /** Length of the well-formed character at position `i` that ends at `stop` or before, or 0. */
  function CharAt(s: seq<Byte>, i: nat, stop: nat): (n: nat)
    requires i <= stop <= |s|
    ensures n <= 4 && i + n <= stop
  {
    if i == stop then 0
    else if 0 <= s[i] <= 0x7F then 1
    else if 0xC2 <= s[i] <= 0xDF then
      if i + 2 <= stop && Continuation(s[i + 1]) then 2 else 0
    else if 0xE0 <= s[i] <= 0xEF then
      if i + 3 <= stop && Continuation(s[i + 1]) && Continuation(s[i + 2])
         && (s[i] == 0xE0 ==> s[i + 1] >= 0xA0) && (s[i] == 0xED ==> s[i + 1] <= 0x9F) then 3 else 0
    else if 0xF0 <= s[i] <= 0xF4 then
      if i + 4 <= stop && Continuation(s[i + 1]) && Continuation(s[i + 2]) && Continuation(s[i + 3])
         && (s[i] == 0xF0 ==> s[i + 1] >= 0x90) && (s[i] == 0xF4 ==> s[i + 1] <= 0x8F) then 4 else 0
    else 0
  }

  /** The bytes from `i` to `stop` are whole characters. */
  predicate Text(s: seq<Byte>, i: nat, stop: nat)
    requires i <= stop <= |s|
    decreases stop - i
  {
    i == stop || (CharAt(s, i, stop) > 0 && Text(s, i + CharAt(s, i, stop), stop))
  }

  predicate Valid(s: seq<Byte>) {
    Text(s, 0, |s|)
  }

  /** A character is recognised from its own bytes alone. */
  lemma CharIsLocal(s: seq<Byte>, i: nat, stop: nat, m: nat)
    requires i <= m <= stop <= |s|
    ensures CharAt(s, i, m) == if i + CharAt(s, i, stop) <= m then CharAt(s, i, stop) else 0
  {
  }

  lemma {:induction false} TextConcat(s: seq<Byte>, i: nat, m: nat, stop: nat)
    requires i <= m <= stop <= |s| && Text(s, i, m) && Text(s, m, stop)
    ensures Text(s, i, stop)
    decreases m - i
  {
    if i < m {
      CharIsLocal(s, i, stop, m);
      TextConcat(s, i + CharAt(s, i, m), m, stop);
    }
  }

  /** What follows a character boundary of a text is a text again. */
  lemma {:induction false} TextRest(s: seq<Byte>, i: nat, m: nat, stop: nat)
    requires i <= m <= stop <= |s| && Text(s, i, m) && Text(s, i, stop)
    ensures Text(s, m, stop)
    decreases m - i
  {
    if i < m {
      CharIsLocal(s, i, stop, m);
      TextRest(s, i + CharAt(s, i, m), m, stop);
    }
  }

  /** Cutting a piece out of a file changes no text in it. */
  lemma {:induction false} TextInSlice(s: seq<Byte>, from: nat, to: nat, i: nat, stop: nat)
    requires from <= to <= |s| && i <= stop <= to - from
    ensures Text(s[from..to], i, stop) == Text(s, from + i, from + stop)
    decreases stop - i
  {
    CharInSlice(s, from, to, i, stop);
    if i < stop && CharAt(s, from + i, from + stop) > 0 {
      TextInSlice(s, from, to, i + CharAt(s, from + i, from + stop), stop);
    }
  }

  lemma CharInSlice(s: seq<Byte>, from: nat, to: nat, i: nat, stop: nat)
    requires from <= to <= |s| && i <= stop <= to - from
    ensures CharAt(s[from..to], i, stop) == CharAt(s, from + i, from + stop)
  {
  }

  /** The Unicode scalar values: all code points but the surrogates. */
  predicate Scalar(c: int) {
    0 <= c < 0xD800 || 0xE000 <= c <= 0x10FFFF
  }

  /** The encoding of a scalar value, by the table of section 3 of RFC 3629. */
  function Encode(c: int): (bytes: seq<Byte>)
    requires Scalar(c)
    ensures 1 <= |bytes| <= 4
  {
    if c < 0x80 then [c]
    else if c < 0x800 then [0xC0 + c / 64, 0x80 + c % 64]
    else if c < 0x1_0000 then [0xE0 + c / 4096, 0x80 + c / 64 % 64, 0x80 + c % 64]
    else [0xF0 + c / 262_144, 0x80 + c / 4096 % 64, 0x80 + c / 64 % 64, 0x80 + c % 64]
  }

  ghost function EncodeAll(cs: seq<int>): seq<Byte>
    requires forall i | 0 <= i < |cs| :: Scalar(cs[i])
  {
    if |cs| == 0 then [] else Encode(cs[0]) + EncodeAll(cs[1..])
  }

  lemma SixBits(high: nat, low: nat)
    requires low < 64
    ensures (high * 64 + low) / 64 == high && (high * 64 + low) % 64 == low
  {
  }

  /** A code point by its groups of six bits. */
  lemma Groups(a: nat, b: nat, c: nat, d: nat)
    requires b < 64 && c < 64 && d < 64
    ensures var x := ((a * 64 + b) * 64 + c) * 64 + d;
            x / 262_144 == a && x / 4096 % 64 == b && x / 64 % 64 == c && x % 64 == d && x / 4096 == a * 64 + b && x / 64 == (a * 64 + b) * 64 + c
  {
    SixBits(a, b);
    SixBits(a * 64 + b, c);
    SixBits((a * 64 + b) * 64 + c, d);
    var x := ((a * 64 + b) * 64 + c) * 64 + d;
    assert x / 64 / 64 == x / 4096 && x / 4096 / 64 == x / 262_144;
  }

  lemma EncodedIsChar(c: int, rest: seq<Byte>)
    requires Scalar(c)
    ensures CharAt(Encode(c) + rest, 0, |Encode(c) + rest|) == |Encode(c)|
  {
    var s, code := Encode(c) + rest, Encode(c);
    assert forall i | 0 <= i < |code| :: s[i] == code[i];
    GroupsOf(c);
    hide Encode;
  }

  /** The bytes of an encoding lie in the ranges of the table. */
  lemma GroupsOf(c: int)
    requires Scalar(c)
    ensures var code := Encode(c);
            match |code|
            case 1 => 0 <= code[0] <= 0x7F
            case 2 => 0xC2 <= code[0] <= 0xDF && Continuation(code[1])
            case 3 => 0xE0 <= code[0] <= 0xEF && Continuation(code[1]) && Continuation(code[2])
                      && (code[0] == 0xE0 ==> code[1] >= 0xA0) && (code[0] == 0xED ==> code[1] <= 0x9F)
            case _ => 0xF0 <= code[0] <= 0xF4 && Continuation(code[1]) && Continuation(code[2]) && Continuation(code[3])
                      && (code[0] == 0xF0 ==> code[1] >= 0x90) && (code[0] == 0xF4 ==> code[1] <= 0x8F)
  {
    assert c / 64 / 64 == c / 4096 && c / 4096 / 64 == c / 262_144;
  }

  lemma CharIsEncoded(s: seq<Byte>) returns (c: int)
    requires CharAt(s, 0, |s|) > 0
    ensures Scalar(c) && s[..CharAt(s, 0, |s|)] == Encode(c)
  {
    var n := CharAt(s, 0, |s|);
    if n == 1 {
      c := s[0];
    } else if n == 2 {
      c := TwoBytes(s[0], s[1]);
    } else if n == 3 {
      c := ThreeBytes(s[0], s[1], s[2]);
    } else {
      c := FourBytes(s[0], s[1], s[2], s[3]);
    }
    hide Encode;
  }

  lemma TwoBytes(a: Byte, b: Byte) returns (c: int)
    requires 0xC2 <= a <= 0xDF && Continuation(b)
    ensures Scalar(c) && Encode(c) == [a, b]
  {
    c := (a - 0xC0) * 64 + (b - 0x80);
    SixBits(a - 0xC0, b - 0x80);
  }

  lemma ThreeBytes(a: Byte, b: Byte, d: Byte) returns (c: int)
    requires 0xE0 <= a <= 0xEF && Continuation(b) && Continuation(d) && (a == 0xE0 ==> b >= 0xA0) && (a == 0xED ==> b <= 0x9F)
    ensures Scalar(c) && Encode(c) == [a, b, d]
  {
    c := ((0 * 64 + (a - 0xE0)) * 64 + (b - 0x80)) * 64 + (d - 0x80);
    Groups(0, a - 0xE0, b - 0x80, d - 0x80);
  }

  lemma FourBytes(a: Byte, b: Byte, d: Byte, e: Byte) returns (c: int)
    requires 0xF0 <= a <= 0xF4 && Continuation(b) && Continuation(d) && Continuation(e)
    requires (a == 0xF0 ==> b >= 0x90) && (a == 0xF4 ==> b <= 0x8F)
    ensures Scalar(c) && Encode(c) == [a, b, d, e]
  {
    c := (((a - 0xF0) * 64 + (b - 0x80)) * 64 + (d - 0x80)) * 64 + (e - 0x80);
    Groups(a - 0xF0, b - 0x80, d - 0x80, e - 0x80);
  }

  /** A log is valid exactly when it is the encoding of some scalar values. */
  lemma ValidIffEncoded(s: seq<Byte>)
    ensures Valid(s) <==> exists cs :: (forall i | 0 <= i < |cs| :: Scalar(cs[i])) && EncodeAll(cs) == s
  {
    if Valid(s) {
      var cs := Decoded(s);
    }
    forall cs | (forall i | 0 <= i < |cs| :: Scalar(cs[i])) && EncodeAll(cs) == s
      ensures Valid(s)
    {
      EncodedIsValid(cs);
    }
  }

  lemma {:induction false} EncodedIsValid(cs: seq<int>)
    requires forall i | 0 <= i < |cs| :: Scalar(cs[i])
    ensures Valid(EncodeAll(cs))
    decreases |cs|
  {
    if |cs| > 0 {
      var rest := EncodeAll(cs[1..]);
      var s, n := Encode(cs[0]) + rest, |Encode(cs[0])|;
      EncodedIsValid(cs[1..]);
      EncodedIsChar(cs[0], rest);
      assert s[n..] == rest && s[n..|s|] == rest;
      TextInSlice(s, n, |s|, 0, |rest|);
      hide CharAt, Encode;
    }
  }

  lemma {:induction false} Decoded(s: seq<Byte>) returns (cs: seq<int>)
    requires Valid(s)
    ensures (forall i | 0 <= i < |cs| :: Scalar(cs[i])) && EncodeAll(cs) == s
    decreases |s|
  {
    hide CharAt, Encode, EncodeAll, Text;
    if |s| == 0 {
      cs := [];
      NothingEncoded();
    } else {
      var n, c := FirstChar(s);
      var rest := Decoded(s[n..]);
      cs := [c] + rest;
      EncodeCons(c, rest);
      assert s == s[..n] + s[n..];
    }
  }

  lemma NothingEncoded()
    ensures EncodeAll([]) == []
  {
  }

  lemma EncodeCons(c: int, rest: seq<int>)
    requires Scalar(c) && forall i | 0 <= i < |rest| :: Scalar(rest[i])
    ensures (forall i | 0 <= i < |[c] + rest| :: Scalar(([c] + rest)[i])) && EncodeAll([c] + rest) == Encode(c) + EncodeAll(rest)
  {
    assert ([c] + rest)[1..] == rest;
    hide Encode;
  }

  lemma FirstChar(s: seq<Byte>) returns (n: nat, c: int)
    requires Valid(s) && |s| > 0
    ensures 0 < n <= |s| && Scalar(c) && s[..n] == Encode(c) && Valid(s[n..])
  {
    n := CharAt(s, 0, |s|);
    c := CharIsEncoded(s);
    assert s[n..|s|] == s[n..];
    TextInSlice(s, n, |s|, 0, |s| - n);
    hide CharAt, Encode;
  }

  // ---------- reading one file ----------

  /** The first position from `i` that is no continuation byte. */
  function SkipLeading(s: seq<Byte>, i: nat, stop: nat): (m: nat)
    requires i <= stop <= |s|
    ensures i <= m <= stop
    decreases stop - i
  {
    if i < stop && Continuation(s[i]) then SkipLeading(s, i + 1, stop) else i
  }

  /** Where the longest text from `i` that ends at `stop` or before ends. */
  function LongestText(s: seq<Byte>, i: nat, stop: nat): (m: nat)
    requires i <= stop <= |s|
    ensures i <= m <= stop
    decreases stop - i
  {
    if i == stop || Text(s, i, stop) then stop else LongestText(s, i, stop - 1)
  }

  lemma {:induction false} LongestIsLongest(s: seq<Byte>, i: nat, stop: nat)
    requires i <= stop <= |s|
    ensures Text(s, i, LongestText(s, i, stop))
    ensures forall m | LongestText(s, i, stop) < m <= stop :: !Text(s, i, m)
    decreases stop - i
  {
    if i < stop && !Text(s, i, stop) {
      LongestIsLongest(s, i, stop - 1);
    }
  }

  datatype Page = Page(text: seq<Byte>, next: nat, more: bool)

  /** `readLog`, told by positions in the file. */
  function ReadLog(file: seq<Byte>, offset: nat, maxBytes: nat): Page {
    var start := Min(offset, |file|);
    var stop := Min(start + maxBytes, |file|);
    var from := SkipLeading(file, start, stop);
    var to := LongestText(file, from, stop);
    Page(file[from..to], to, to < |file|)
  }

  /** One more byte after the leading ones, or the end of them. */
  lemma SkipStep(s: seq<Byte>, i: nat, stop: nat)
    requires i <= stop <= |s|
    ensures SkipLeading(s, i, stop) == if i < stop && Continuation(s[i]) then SkipLeading(s, i + 1, stop) else i
  {
  }

  /** The text of a cut-out piece, seen from the piece and from the file. */
  lemma PieceIsText(file: seq<Byte>, from: nat, to: nat)
    requires from <= to <= |file|
    ensures Valid(file[from..to]) == Text(file, from, to)
    ensures LongestText(file, from, to) == if from == to || Text(file, from, to) then to else LongestText(file, from, to - 1)
  {
    TextInSlice(file, from, to, 0, to - from);
  }

  /** The loop of `readLog` that drops continuation bytes at the front of the buffer. */
  method CountLeading(buffer: seq<Byte>, ghost file: seq<Byte>, ghost start: nat) returns (leading: nat)
    requires start + |buffer| <= |file| && buffer == file[start..start + |buffer|]
    ensures leading <= |buffer| && start + leading == SkipLeading(file, start, start + |buffer|)
  {
    hide SkipLeading;
    ghost var stop := start + |buffer|;
    leading := 0;
    while leading < |buffer| && Continuation(buffer[leading])
      invariant 0 <= leading <= |buffer|
      invariant SkipLeading(file, start, stop) == SkipLeading(file, start + leading, stop)
    {
      SkipStep(file, start + leading, stop);
      leading := leading + 1;
    }
    SkipStep(file, start + leading, stop);
  }

  /** The loop of `readLog` that shortens the buffer until it is valid UTF-8. */
  method LongestValid(buffer: seq<Byte>, ghost file: seq<Byte>, ghost from: nat) returns (validLength: nat)
    requires from + |buffer| <= |file| && buffer == file[from..from + |buffer|]
    ensures validLength <= |buffer| && from + validLength == LongestText(file, from, from + |buffer|)
  {
    hide Text, Valid, LongestText;
    ghost var stop := from + |buffer|;
    validLength := |buffer|;
    while validLength > 0 && !Valid(buffer[..validLength])
      invariant 0 <= validLength <= |buffer|
      invariant LongestText(file, from, stop) == LongestText(file, from, from + validLength)
    {
      assert buffer[..validLength] == file[from..from + validLength];
      PieceIsText(file, from, from + validLength);
      validLength := validLength - 1;
    }
    assert buffer[..validLength] == file[from..from + validLength];
    PieceIsText(file, from, from + validLength);
  }

  method ReadLogFile(file: seq<Byte>, offset: nat, maxBytes: nat) returns (page: Page)
    ensures page == ReadLog(file, offset, maxBytes)
  {
    hide SkipLeading, LongestText;
    var start := offset;
    if start > |file| {
      start := |file|;
    }
    var buffer := file[start..start + Min(maxBytes, |file| - start)];
    var leading := CountLeading(buffer, file, start);
    buffer := buffer[leading..];
    var validLength := LongestValid(buffer, file, start + leading);
    var next := start + leading + validLength;
    return Page(buffer[..validLength], next, next < |file|);
  }

  /** The position stands between two characters of a valid file. */
  ghost predicate Boundary(file: seq<Byte>, at: nat) {
    at <= |file| && Text(file, 0, at)
  }

  lemma LongestPassesFirstChar(s: seq<Byte>, i: nat, stop: nat)
    requires i <= stop <= |s| && i < |s| && Text(s, i, |s|)
    ensures LongestText(s, i, stop) > i <==> i + CharAt(s, i, |s|) <= stop
  {
    var c := CharAt(s, i, |s|);
    LongestIsLongest(s, i, stop);
    CharIsLocal(s, i, |s|, stop);
    if i + c <= stop {
      CharIsLocal(s, i, |s|, i + c);
      assert Text(s, i, i + c);
    } else {
      var m := LongestText(s, i, stop);
      CharIsLocal(s, i, |s|, m);
    }
  }

  /** From a boundary of a valid file a page is exactly the text up to the next position, again a boundary. */
  lemma ReadFromBoundary(file: seq<Byte>, at: nat, maxBytes: nat)
    requires Valid(file) && Boundary(file, at)
    ensures var page := ReadLog(file, at, maxBytes);
            && at <= page.next <= at + maxBytes && Boundary(file, page.next)
            && page.text == file[at..page.next] && page.more == (page.next < |file|)
            && (page.next > at <==> at < |file| && CharAt(file, at, |file|) <= maxBytes)
            && (|file| - at <= maxBytes ==> page.next == |file|)
  {
    TextRest(file, 0, at, |file|);
    var stop := Min(at + maxBytes, |file|);
    if at < |file| {
      LongestPassesFirstChar(file, at, stop);
    }
    LongestIsLongest(file, at, stop);
    TextConcat(file, 0, at, LongestText(file, at, stop));
  }

  // ---------- arbitrary bytes ----------

  /** The character at `i` of the whole file, or the one stray continuation byte there; 0 if neither. */
  function ScanStep(file: seq<Byte>, i: nat): (n: nat)
    requires i <= |file|
    ensures i + n <= |file|
  {
    if i < |file| && Continuation(file[i]) then 1 else CharAt(file, i, |file|)
  }

  /** Stepping over characters and stray continuation bytes ends here: at the end, or at a byte that is neither. */
  function ScanEnd(file: seq<Byte>, i: nat): (m: nat)
    requires i <= |file|
    ensures i <= m <= |file|
    decreases |file| - i
  {
    if ScanStep(file, i) == 0 then i else ScanEnd(file, i + ScanStep(file, i))
  }

  /** The bytes of the characters met on the way. */
  function ScanText(file: seq<Byte>, i: nat): seq<Byte>
    requires i <= |file|
    decreases |file| - i
  {
    var n := ScanStep(file, i);
    if n == 0 then []
    else (if Continuation(file[i]) then [] else file[i..i + n]) + ScanText(file, i + n)
  }

  /** A stall: paging from `i` can never go further. */
  predicate Stuck(file: seq<Byte>, i: nat)
    requires i <= |file|
  {
    i < |file| && !Continuation(file[i]) && CharAt(file, i, |file|) == 0
  }

  lemma {:induction false} ScanEndsAtEndOrStuck(file: seq<Byte>, i: nat)
    requires i <= |file|
    ensures ScanEnd(file, i) == |file| || Stuck(file, ScanEnd(file, i))
    decreases |file| - i
  {
    if ScanStep(file, i) > 0 {
      ScanEndsAtEndOrStuck(file, i + ScanStep(file, i));
    } else if i < |file| {
      assert !Continuation(file[i]);
    }
  }

  /** The leading continuation bytes a page skips are steps of the scan. */
  lemma {:induction false} ScanOverLeading(file: seq<Byte>, i: nat, stop: nat)
    requires i <= stop <= |file|
    ensures var from := SkipLeading(file, i, stop);
            ScanEnd(file, i) == ScanEnd(file, from) && ScanText(file, i) == ScanText(file, from)
    decreases stop - i
  {
    if i < stop && Continuation(file[i]) {
      ScanOverLeading(file, i + 1, stop);
    }
  }

  /** A text is stepped over character by character. */
  lemma {:induction false} ScanOverText(file: seq<Byte>, i: nat, m: nat)
    requires i <= m <= |file| && Text(file, i, m)
    ensures ScanEnd(file, i) == ScanEnd(file, m) && ScanText(file, i) == file[i..m] + ScanText(file, m)
    decreases m - i
  {
    hide CharAt, Text, ScanStep, ScanEnd, ScanText;
    if i == m {
      assert file[i..m] == [];
    } else {
      var n := StepsOverCharacter(file, i, m);
      ScanOverText(file, i + n, m);
      SplitScan(file, i, i + n, m);
    }
  }

  lemma SplitScan(file: seq<Byte>, i: nat, k: nat, m: nat)
    requires i < k <= m <= |file| && k == i + ScanStep(file, i) && !Continuation(file[i])
    ensures ScanEnd(file, i) == ScanEnd(file, k)
    ensures ScanText(file, k) == file[k..m] + ScanText(file, m) ==> ScanText(file, i) == file[i..m] + ScanText(file, m)
  {
    hide CharAt, ScanStep, ScanText;
    ScanTextUnfolds(file, i, k);
    assert file[i..m] == file[i..k] + file[k..m];
  }

  lemma ScanTextUnfolds(file: seq<Byte>, i: nat, k: nat)
    requires i < k <= |file| && k == i + ScanStep(file, i) && !Continuation(file[i])
    ensures ScanText(file, i) == file[i..k] + ScanText(file, k)
  {
    hide ScanStep;
  }

  lemma StepsOverCharacter(file: seq<Byte>, i: nat, m: nat) returns (n: nat)
    requires i < m <= |file| && Text(file, i, m)
    ensures n == ScanStep(file, i) && 0 < n && i + n <= m && Text(file, i + n, m) && !Continuation(file[i])
  {
    CharIsLocal(file, i, |file|, m);
    n := CharAt(file, i, m);
    StartsNoContinuation(file, i, m);
  }

  lemma StartsNoContinuation(file: seq<Byte>, i: nat, stop: nat)
    requires i < stop <= |file| && CharAt(file, i, stop) > 0
    ensures !Continuation(file[i])
  {
  }

  /** A page of any file moves on exactly when it begins with a stray continuation byte or a character that fits. */
  lemma PageAdvancesIff(file: seq<Byte>, at: nat, maxBytes: nat)
    requires at <= |file|
    ensures ReadLog(file, at, maxBytes).next > at
            <==> at < |file| && maxBytes > 0 && (Continuation(file[at]) || 0 < CharAt(file, at, |file|) <= maxBytes)
  {
    var stop := Min(at + maxBytes, |file|);
    var from := SkipLeading(file, at, stop);
    LongestIsLongest(file, from, stop);
    if from == at && at < stop {
      var c := CharAt(file, at, |file|);
      CharIsLocal(file, at, |file|, LongestText(file, at, stop));
      if 0 < c && at + c <= stop {
        CharIsLocal(file, at, |file|, at + c);
        assert Text(file, at + c, at + c);
        assert Text(file, at, at + c);
      }
    }
  }

  /** So a page stalls at every size exactly at a byte that starts no character and continues none. */
  lemma InvalidByteStallsIff(file: seq<Byte>, at: nat)
    requires at < |file|
    ensures (forall maxBytes: nat :: ReadLog(file, at, maxBytes) == Page([], at, true)) <==> Stuck(file, at)
  {
    if Stuck(file, at) {
      forall maxBytes: nat
        ensures ReadLog(file, at, maxBytes) == Page([], at, true)
      {
        PageAdvancesIff(file, at, maxBytes);
        NextIsNotBefore(file, at, maxBytes);
      }
    } else {
      PageAdvancesIff(file, at, 4);
    }
  }

  lemma NextIsNotBefore(file: seq<Byte>, at: nat, maxBytes: nat)
    requires at <= |file|
    ensures var page := ReadLog(file, at, maxBytes);
            && at <= page.next <= at + maxBytes && page.next <= |file| && |page.text| <= page.next - at
            && page.more == (page.next < |file|)
  {
  }

  /** A page of any file is part of the scan: what it returns and where it ends. */
  lemma PageScans(file: seq<Byte>, at: nat, maxBytes: nat)
    requires at <= |file|
    ensures var page := ReadLog(file, at, maxBytes);
            && page.next <= |file| && ScanEnd(file, page.next) == ScanEnd(file, at)
            && ScanText(file, at) == page.text + ScanText(file, page.next)
  {
    var stop := Min(at + maxBytes, |file|);
    var from := SkipLeading(file, at, stop);
    ScanOverLeading(file, at, stop);
    LongestIsLongest(file, from, stop);
    ScanOverText(file, from, LongestText(file, from, stop));
  }

  // ---------- one offset over both files ----------

  function ReadCompatibility(stdout: seq<Byte>, stderr: seq<Byte>, offset: nat, maxBytes: nat): Page {
    var total := |stdout| + |stderr|;
    var start := Min(offset, total);
    var first := if start < |stdout| then ReadLog(stdout, start, maxBytes) else Page([], start, true);
    if first.next >= |stdout| && |first.text| < maxBytes then
      var second := ReadLog(stderr, first.next - |stdout|, maxBytes - |first.text|);
      Page(first.text + second.text, |stdout| + second.next, |stdout| + second.next < total)
    else
      Page(first.text, first.next, first.next < total)
  }

  /** `readCompatibilityLog`. */
  method ReadCompatibilityLog(stdout: seq<Byte>, stderr: seq<Byte>, offset: nat, maxBytes: nat) returns (page: Page)
    ensures page == ReadCompatibility(stdout, stderr, offset, maxBytes)
  {
    hide CharAt, Text, LongestText, SkipLeading, ReadLog;
    var total := |stdout| + |stderr|;
    var at := offset;
    if at > total {
      at := total;
    }
    var text: seq<Byte> := [];
    if at < |stdout| {
      var first := ReadLogFile(stdout, at, maxBytes);
      text, at := first.text, first.next;
    }
    if at >= |stdout| && |text| < maxBytes {
      var second := ReadLogFile(stderr, at - |stdout|, maxBytes - |text|);
      text, at := text + second.text, |stdout| + second.next;
    }
    return Page(text, at, at < total);
  }

  /** A virtual offset between two characters of stdout followed by stderr. */
  ghost predicate JointBoundary(stdout: seq<Byte>, stderr: seq<Byte>, at: nat) {
    && at <= |stdout| + |stderr|
    && (if at < |stdout| then Boundary(stdout, at) else Boundary(stderr, at - |stdout|))
  }

  /** Length of the character at a virtual offset. */
  ghost function JointChar(stdout: seq<Byte>, stderr: seq<Byte>, at: nat): nat
    requires at <= |stdout| + |stderr|
  {
    if at < |stdout| then CharAt(stdout, at, |stdout|) else CharAt(stderr, at - |stdout|, |stderr|)
  }

  ghost predicate GoodPage(stdout: seq<Byte>, stderr: seq<Byte>, at: nat, maxBytes: nat, page: Page)
    requires at <= |stdout| + |stderr|
  {
    && at <= page.next && JointBoundary(stdout, stderr, page.next)
    && page.text == (stdout + stderr)[at..page.next] && |page.text| <= maxBytes
    && page.more == (page.next < |stdout| + |stderr|)
    && (page.next > at <==> at < |stdout| + |stderr| && JointChar(stdout, stderr, at) <= maxBytes)
  }

  lemma PageInStdout(stdout: seq<Byte>, stderr: seq<Byte>, at: nat, maxBytes: nat)
    requires Valid(stdout) && Valid(stderr) && at < |stdout| && Boundary(stdout, at)
    ensures GoodPage(stdout, stderr, at, maxBytes, ReadCompatibility(stdout, stderr, at, maxBytes))
  {
    hide CharAt, Text, LongestText, SkipLeading, ReadLog, Boundary, Valid;
    if ReadLog(stdout, at, maxBytes).next == |stdout| {
      PageAcross(stdout, stderr, at, maxBytes);
    } else {
      PageWithin(stdout, stderr, at, maxBytes);
    }
    hide GoodPage, ReadCompatibility;
  }

  lemma PageWithin(stdout: seq<Byte>, stderr: seq<Byte>, at: nat, maxBytes: nat)
    requires Valid(stdout) && at < |stdout| && Boundary(stdout, at) && ReadLog(stdout, at, maxBytes).next != |stdout|
    ensures GoodPage(stdout, stderr, at, maxBytes, ReadCompatibility(stdout, stderr, at, maxBytes))
  {
    ReadFromBoundary(stdout, at, maxBytes);
    BoundaryIsWithin(stdout, ReadLog(stdout, at, maxBytes).next);
    hide CharAt, Text, LongestText, SkipLeading, ReadLog, Boundary, Valid;
    FirstText(stdout, stderr, at, ReadLog(stdout, at, maxBytes).next);
  }

  lemma FirstText(stdout: seq<Byte>, stderr: seq<Byte>, at: nat, end: nat)
    requires at <= end <= |stdout|
    ensures stdout[at..end] == (stdout + stderr)[at..end]
  {
  }

  lemma BoundaryIsWithin(file: seq<Byte>, i: nat)
    requires Boundary(file, i)
    ensures i <= |file|
  {
  }

  /** Stdout is read to its end, and the page goes on in stderr. */
  lemma PageAcross(stdout: seq<Byte>, stderr: seq<Byte>, at: nat, maxBytes: nat)
    requires Valid(stdout) && Valid(stderr) && at < |stdout| && Boundary(stdout, at)
    requires ReadLog(stdout, at, maxBytes).next == |stdout|
    ensures GoodPage(stdout, stderr, at, maxBytes, ReadCompatibility(stdout, stderr, at, maxBytes))
  {
    hide GoodPage, ReadCompatibility, ReadLog, Boundary, Valid, CharAt;
    ReadToEnd(stdout, at, maxBytes);
    var rest := maxBytes - (|stdout| - at);
    ReadFromStart(stderr, rest);
    AcrossIs(stdout, stderr, at, maxBytes);
    AcrossIsGood(stdout, stderr, at, maxBytes, ReadLog(stderr, 0, rest).next);
  }

  lemma ReadToEnd(file: seq<Byte>, at: nat, maxBytes: nat)
    requires Valid(file) && at < |file| && Boundary(file, at) && ReadLog(file, at, maxBytes).next == |file|
    ensures ReadLog(file, at, maxBytes).text == file[at..] && |file| - at <= maxBytes && CharAt(file, at, |file|) <= maxBytes
  {
    ReadFromBoundary(file, at, maxBytes);
    hide ReadLog, CharAt;
  }

  lemma ReadFromStart(file: seq<Byte>, maxBytes: nat)
    requires Valid(file)
    ensures var page := ReadLog(file, 0, maxBytes);
            page.next <= |file| && page.next <= maxBytes && Boundary(file, page.next) && page.text == file[..page.next]
  {
    StartIsBoundary(file);
    ReadFromBoundary(file, 0, maxBytes);
    BoundaryIsWithin(file, ReadLog(file, 0, maxBytes).next);
    hide ReadLog, CharAt;
  }

  lemma AcrossIsGood(stdout: seq<Byte>, stderr: seq<Byte>, at: nat, maxBytes: nat, end: nat)
    requires at < |stdout| && end <= |stderr| && Boundary(stderr, end)
    requires |stdout| - at + end <= maxBytes && CharAt(stdout, at, |stdout|) <= maxBytes
    ensures GoodPage(stdout, stderr, at, maxBytes, Page(stdout[at..] + stderr[..end], |stdout| + end, end < |stderr|))
  {
    hide CharAt, Boundary;
    BothTexts(stdout, stderr, at, end);
  }

  lemma AcrossIs(stdout: seq<Byte>, stderr: seq<Byte>, at: nat, maxBytes: nat)
    requires at < |stdout| && |stdout| - at <= maxBytes
    requires ReadLog(stdout, at, maxBytes).next == |stdout| && ReadLog(stdout, at, maxBytes).text == stdout[at..]
    ensures var second := ReadLog(stderr, 0, maxBytes - (|stdout| - at));
            (|stdout| - at == maxBytes ==> second.text == [] && second.next == 0) ==>
              ReadCompatibility(stdout, stderr, at, maxBytes)
              == Page(stdout[at..] + second.text, |stdout| + second.next, |stdout| + second.next < |stdout| + |stderr|)
  {
    hide ReadLog;
    assert Min(at, |stdout| + |stderr|) == at;
    assert stdout[at..] + [] == stdout[at..];
  }

  lemma StartIsBoundary(file: seq<Byte>)
    ensures Boundary(file, 0)
  {
  }

  lemma BothTexts(stdout: seq<Byte>, stderr: seq<Byte>, at: nat, end: nat)
    requires at <= |stdout| && end <= |stderr|
    ensures stdout[at..] + stderr[..end] == (stdout + stderr)[at..|stdout| + end]
  {
  }

  lemma PageInStderr(stdout: seq<Byte>, stderr: seq<Byte>, at: nat, maxBytes: nat)
    requires Valid(stderr) && |stdout| <= at && Boundary(stderr, at - |stdout|)
    ensures GoodPage(stdout, stderr, at, maxBytes, ReadCompatibility(stdout, stderr, at, maxBytes))
  {
    hide CharAt, Text, LongestText, SkipLeading, ReadLog;
    var i := at - |stdout|;
    ReadFromBoundary(stderr, i, maxBytes);
    TextRest(stderr, 0, i, |stderr|);
    var second := ReadLog(stderr, i, maxBytes);
    assert second.text == (stdout + stderr)[at..|stdout| + second.next];
  }

  /** One page of the joined logs: exact text, again a boundary; it advances exactly when the next character fits. */
  lemma CompatibilityPage(stdout: seq<Byte>, stderr: seq<Byte>, at: nat, maxBytes: nat)
    requires Valid(stdout) && Valid(stderr) && JointBoundary(stdout, stderr, at)
    ensures GoodPage(stdout, stderr, at, maxBytes, ReadCompatibility(stdout, stderr, at, maxBytes))
  {
    if at < |stdout| {
      PageInStdout(stdout, stderr, at, maxBytes);
    } else {
      PageInStderr(stdout, stderr, at, maxBytes);
    }
  }

  /** Follows `next_offset` through pages of the given sizes. */
  function Follow(stdout: seq<Byte>, stderr: seq<Byte>, sizes: seq<nat>): (seq<Byte>, nat)
    decreases |sizes|
  {
    if |sizes| == 0 then ([], 0)
    else
      var (text, at) := Follow(stdout, stderr, sizes[..|sizes| - 1]);
      var page := ReadCompatibility(stdout, stderr, at, sizes[|sizes| - 1]);
      (text + page.text, page.next)
  }

  /** What following the offsets has established so far. */
  ghost predicate ReadSoFar(stdout: seq<Byte>, stderr: seq<Byte>, pages: nat, text: seq<Byte>, at: nat) {
    && JointBoundary(stdout, stderr, at) && at >= Min(pages, |stdout| + |stderr|)
    && text == (stdout + stderr)[..at]
  }

  lemma NothingRead(stdout: seq<Byte>, stderr: seq<Byte>)
    ensures ReadSoFar(stdout, stderr, 0, [], 0)
  {
  }

  /** One more page of at least four bytes moves on, or the end is reached already. */
  lemma OneMorePage(stdout: seq<Byte>, stderr: seq<Byte>, pages: nat, text: seq<Byte>, at: nat, size: nat)
    requires Valid(stdout) && Valid(stderr) && size >= 4 && ReadSoFar(stdout, stderr, pages, text, at)
    ensures var page := ReadCompatibility(stdout, stderr, at, size);
            ReadSoFar(stdout, stderr, pages + 1, text + page.text, page.next)
  {
    hide CharAt, Text, Valid, Boundary, ReadCompatibility;
    CompatibilityPage(stdout, stderr, at, size);
    var page, whole := ReadCompatibility(stdout, stderr, at, size), stdout + stderr;
    assert whole[..at] + whole[at..page.next] == whole[..page.next];
  }

  lemma {:induction false} FollowReadsPrefix(stdout: seq<Byte>, stderr: seq<Byte>, sizes: seq<nat>)
    requires Valid(stdout) && Valid(stderr) && forall i | 0 <= i < |sizes| :: sizes[i] >= 4
    ensures var (text, at) := Follow(stdout, stderr, sizes);
            ReadSoFar(stdout, stderr, |sizes|, text, at)
    decreases |sizes|
  {
    hide Valid, ReadSoFar, ReadCompatibility;
    if |sizes| == 0 {
      NothingRead(stdout, stderr);
    } else {
      var init, size := sizes[..|sizes| - 1], sizes[|sizes| - 1];
      FollowReadsPrefix(stdout, stderr, init);
      var (text, at) := Follow(stdout, stderr, init);
      OneMorePage(stdout, stderr, |init|, text, at, size);
    }
  }

  /**
   * Paging round trip: with pages of at least four bytes every page advances until the end,
   * and after at most as many pages as there are bytes the texts join to stdout then stderr.
   */
  lemma PagingRoundTrip(stdout: seq<Byte>, stderr: seq<Byte>, sizes: seq<nat>)
    requires Valid(stdout) && Valid(stderr) && forall i | 0 <= i < |sizes| :: sizes[i] >= 4
    requires |sizes| >= |stdout| + |stderr|
    ensures Follow(stdout, stderr, sizes) == (stdout + stderr, |stdout| + |stderr|)
  {
    hide CharAt, Text, ReadCompatibility, Follow;
    FollowReadsPrefix(stdout, stderr, sizes);
    assert (stdout + stderr)[..|stdout| + |stderr|] == stdout + stderr;
  }

  // ---------- paging of arbitrary logs ----------

  /** Where paging over both files from a virtual offset ends, and what it returns on the way. */
  function JointEnd(stdout: seq<Byte>, stderr: seq<Byte>, at: nat): (m: nat)
    requires at <= |stdout| + |stderr|
    ensures at <= m <= |stdout| + |stderr|
  {
    if at >= |stdout| then |stdout| + ScanEnd(stderr, at - |stdout|)
    else if ScanEnd(stdout, at) < |stdout| then ScanEnd(stdout, at)
    else |stdout| + ScanEnd(stderr, 0)
  }

  function JointText(stdout: seq<Byte>, stderr: seq<Byte>, at: nat): seq<Byte>
    requires at <= |stdout| + |stderr|
  {
    if at >= |stdout| then ScanText(stderr, at - |stdout|)
    else if ScanEnd(stdout, at) < |stdout| then ScanText(stdout, at)
    else ScanText(stdout, at) + ScanText(stderr, 0)
  }

  lemma ScanFromEnd(file: seq<Byte>)
    ensures ScanEnd(file, |file|) == |file| && ScanText(file, |file|) == []
  {
  }

  ghost predicate JointPage(stdout: seq<Byte>, stderr: seq<Byte>, at: nat, maxBytes: nat, page: Page)
    requires at <= |stdout| + |stderr|
  {
    && at <= page.next <= |stdout| + |stderr|
    && JointEnd(stdout, stderr, page.next) == JointEnd(stdout, stderr, at)
    && JointText(stdout, stderr, at) == page.text + JointText(stdout, stderr, page.next)
    && (maxBytes >= 4 ==> (page.next > at <==> at < JointEnd(stdout, stderr, at)))
  }

  lemma MovesIffNotStuck(file: seq<Byte>, at: nat, maxBytes: nat)
    requires at <= |file| && maxBytes >= 4
    ensures ReadLog(file, at, maxBytes).next > at <==> at < ScanEnd(file, at)
  {
    PageAdvancesIff(file, at, maxBytes);
    hide ScanEnd;
    assert ScanEnd(file, at) == if ScanStep(file, at) == 0 then at else ScanEnd(file, at + ScanStep(file, at)) by { ScanUnfolds(file, at); }
  }

  lemma ScanUnfolds(file: seq<Byte>, at: nat)
    requires at <= |file|
    ensures ScanEnd(file, at) == if ScanStep(file, at) == 0 then at else ScanEnd(file, at + ScanStep(file, at))
  {
  }

  lemma AnyPageInStdout(stdout: seq<Byte>, stderr: seq<Byte>, at: nat, maxBytes: nat)
    requires at < |stdout|
    ensures JointPage(stdout, stderr, at, maxBytes, ReadCompatibility(stdout, stderr, at, maxBytes))
  {
    hide CharAt, Text, LongestText, SkipLeading, ReadLog, ScanEnd, ScanText;
    PageScans(stdout, at, maxBytes);
    NextIsNotBefore(stdout, at, maxBytes);
    if maxBytes >= 4 {
      MovesIffNotStuck(stdout, at, maxBytes);
    }
    ScanFromEnd(stdout);
    var first := ReadLog(stdout, at, maxBytes);
    if first.next == |stdout| && |first.text| < maxBytes {
      PageScans(stderr, 0, maxBytes - |first.text|);
      NextIsNotBefore(stderr, 0, maxBytes - |first.text|);
    }
  }

  lemma AnyPageInStderr(stdout: seq<Byte>, stderr: seq<Byte>, at: nat, maxBytes: nat)
    requires |stdout| <= at <= |stdout| + |stderr|
    ensures JointPage(stdout, stderr, at, maxBytes, ReadCompatibility(stdout, stderr, at, maxBytes))
  {
    hide CharAt, Text, LongestText, SkipLeading, ReadLog, ScanEnd, ScanText;
    PageScans(stderr, at - |stdout|, maxBytes);
    NextIsNotBefore(stderr, at - |stdout|, maxBytes);
    if maxBytes >= 4 {
      MovesIffNotStuck(stderr, at - |stdout|, maxBytes);
    }
  }

  lemma AnyPage(stdout: seq<Byte>, stderr: seq<Byte>, at: nat, maxBytes: nat)
    requires at <= |stdout| + |stderr|
    ensures JointPage(stdout, stderr, at, maxBytes, ReadCompatibility(stdout, stderr, at, maxBytes))
  {
    if at < |stdout| {
      AnyPageInStdout(stdout, stderr, at, maxBytes);
    } else {
      AnyPageInStderr(stdout, stderr, at, maxBytes);
    }
  }

  lemma {:induction false} FollowScans(stdout: seq<Byte>, stderr: seq<Byte>, sizes: seq<nat>)
    requires forall i | 0 <= i < |sizes| :: sizes[i] >= 4
    ensures var (text, at) := Follow(stdout, stderr, sizes);
            && Min(|sizes|, JointEnd(stdout, stderr, 0)) <= at <= |stdout| + |stderr|
            && JointEnd(stdout, stderr, at) == JointEnd(stdout, stderr, 0)
            && text + JointText(stdout, stderr, at) == JointText(stdout, stderr, 0)
    decreases |sizes|
  {
    hide JointEnd, JointText, ReadCompatibility;
    if |sizes| > 0 {
      var init, size := sizes[..|sizes| - 1], sizes[|sizes| - 1];
      FollowScans(stdout, stderr, init);
      var (text, at) := Follow(stdout, stderr, init);
      AnyPage(stdout, stderr, at, size);
      var page := ReadCompatibility(stdout, stderr, at, size);
      assert text + (page.text + JointText(stdout, stderr, page.next)) == text + page.text + JointText(stdout, stderr, page.next);
    }
  }

  /**
   * Paging of any two logs, valid or not, in pages of at least four bytes: it ends where the scan
   * that steps over characters and stray continuation bytes ends, and returns exactly the characters
   * on the way, in order.
   */
  lemma PagingOfAnyLogs(stdout: seq<Byte>, stderr: seq<Byte>, sizes: seq<nat>)
    requires |sizes| >= |stdout| + |stderr| && forall i | 0 <= i < |sizes| :: sizes[i] >= 4
    ensures Follow(stdout, stderr, sizes) == (JointText(stdout, stderr, 0), JointEnd(stdout, stderr, 0))
  {
    hide Follow, JointEnd, JointText;
    FollowScans(stdout, stderr, sizes);
    var (text, at) := Follow(stdout, stderr, sizes);
    JointEndIsEnd(stdout, stderr, at);
    assert text + [] == text;
  }

  lemma JointEndIsEnd(stdout: seq<Byte>, stderr: seq<Byte>, at: nat)
    requires at <= |stdout| + |stderr| && at == JointEnd(stdout, stderr, at)
    ensures JointText(stdout, stderr, at) == []
  {
    if at < |stdout| {
      ScanUnfolds(stdout, at);
    } else {
      ScanUnfolds(stderr, at - |stdout|);
    }
  }

  /** It reaches the end of both logs exactly when the scan of neither meets a byte it cannot step over. */
  lemma PagingReachesEndIff(stdout: seq<Byte>, stderr: seq<Byte>, sizes: seq<nat>)
    requires |sizes| >= |stdout| + |stderr| && forall i | 0 <= i < |sizes| :: sizes[i] >= 4
    ensures Follow(stdout, stderr, sizes).1 == |stdout| + |stderr|
            <==> !Stuck(stdout, ScanEnd(stdout, 0)) && !Stuck(stderr, ScanEnd(stderr, 0))
  {
    PagingOfAnyLogs(stdout, stderr, sizes);
    ScanEndsAtEndOrStuck(stdout, 0);
    ScanEndsAtEndOrStuck(stderr, 0);
    ScanFromEnd(stdout);
    hide ScanEnd, ScanText, CharAt, Follow;
  }

  // ---------- one offset per file ----------

  function Split(stdoutAvailable: nat, stderrAvailable: nat, maxBytes: nat): (nat, nat) {
    if stderrAvailable == 0 then (maxBytes, 0)
    else
      var a, b := (maxBytes + 1) / 2, maxBytes / 2;
      if stdoutAvailable < a then (a, b + (a - stdoutAvailable))
      else if stderrAvailable < b then (a + (b - stderrAvailable), b)
      else (a, b)
  }

  /** The split wastes nothing: together the streams get all the bytes asked for or all there are. */
  lemma SplitIsExact(stdoutAvailable: nat, stderrAvailable: nat, maxBytes: nat)
    ensures var (a, b) := Split(stdoutAvailable, stderrAvailable, maxBytes);
            Min(a, stdoutAvailable) + Min(b, stderrAvailable) == Min(maxBytes, stdoutAvailable + stderrAvailable)
  {
  }

  /**
   * Who may read how much: one with no more than its half reads it all and leaves the rest of the budget to the other;
   * if both have more, stdout gets the odd byte.
   */
  lemma SplitIsFair(stdoutAvailable: nat, stderrAvailable: nat, maxBytes: nat)
    ensures var (m, n) := Split(stdoutAvailable, stderrAvailable, maxBytes);
            && (stdoutAvailable >= (maxBytes + 1) / 2 && stderrAvailable >= maxBytes / 2 && stderrAvailable > 0 ==>
                  m == (maxBytes + 1) / 2 && n == maxBytes / 2)
            && (stdoutAvailable < (maxBytes + 1) / 2 && stderrAvailable > 0 ==> n == maxBytes - stdoutAvailable && m >= stdoutAvailable)
            && (stdoutAvailable >= (maxBytes + 1) / 2 && stderrAvailable < maxBytes / 2 ==> m == maxBytes - stderrAvailable && n >= stderrAvailable)
  {
  }

  function StartAt(offset: Option<nat>, size: nat, maxBytes: nat): (start: nat)
    ensures start <= size
  {
    match offset
    case Some(at) => Min(at, size)
    case None => if size > maxBytes / 2 then size - maxBytes / 2 else 0
  }

  function ReadSeparate(stdout: seq<Byte>, stderr: seq<Byte>, stdoutOffset: Option<nat>, stderrOffset: Option<nat>,
                        maxBytes: nat): (Page, Page)
  {
    var a, b := StartAt(stdoutOffset, |stdout|, maxBytes), StartAt(stderrOffset, |stderr|, maxBytes);
    var (stdoutLimit, stderrLimit) := Split(|stdout| - a, |stderr| - b, maxBytes);
    var p, q := ReadLog(stdout, a, stdoutLimit), ReadLog(stderr, b, stderrLimit);
    (p.(more := p.more || a > 0), q.(more := q.more || b > 0))
  }

  /** `readSeparateLogs`. */
  method ReadSeparateLogs(stdout: seq<Byte>, stderr: seq<Byte>, stdoutOffset: Option<nat>, stderrOffset: Option<nat>,
                          maxBytes: nat) returns (out: Page, err: Page)
    ensures (out, err) == ReadSeparate(stdout, stderr, stdoutOffset, stderrOffset, maxBytes)
  {
    hide CharAt, Text, LongestText, SkipLeading, ReadLog;
    var stdoutStart, stderrStart := 0, 0;
    if stdoutOffset.Some? {
      stdoutStart := Min(stdoutOffset.value, |stdout|);
    } else if |stdout| > maxBytes / 2 {
      stdoutStart := |stdout| - maxBytes / 2;
    }
    if stderrOffset.Some? {
      stderrStart := Min(stderrOffset.value, |stderr|);
    } else if |stderr| > maxBytes / 2 {
      stderrStart := |stderr| - maxBytes / 2;
    }
    var stdoutAvailable, stderrAvailable := |stdout| - stdoutStart, |stderr| - stderrStart;
    var stdoutLimit, stderrLimit := maxBytes, 0;
    if stderrAvailable > 0 {
      stdoutLimit, stderrLimit := (maxBytes + 1) / 2, maxBytes / 2;
      if stdoutAvailable < stdoutLimit {
        stderrLimit := stderrLimit + (stdoutLimit - stdoutAvailable);
      } else if stderrAvailable < stderrLimit {
        stdoutLimit := stdoutLimit + (stderrLimit - stderrAvailable);
      }
    }
    out := ReadLogFile(stdout, stdoutStart, stdoutLimit);
    err := ReadLogFile(stderr, stderrStart, stderrLimit);
    out := out.(more := out.more || stdoutStart > 0);
    err := err.(more := err.more || stderrStart > 0);
  }

  /** One poll with both offsets at boundaries returns exactly the text between old and new offsets. */
  lemma SeparatePages(stdout: seq<Byte>, stderr: seq<Byte>, a: nat, b: nat, maxBytes: nat)
    requires Valid(stdout) && Valid(stderr) && Boundary(stdout, a) && Boundary(stderr, b)
    ensures var (p, q) := ReadSeparate(stdout, stderr, Some(a), Some(b), maxBytes);
            && a <= p.next && Boundary(stdout, p.next) && p.text == stdout[a..p.next]
            && b <= q.next && Boundary(stderr, q.next) && q.text == stderr[b..q.next]
            && |p.text| + |q.text| <= maxBytes
            && (maxBytes >= 7 && (a < |stdout| || b < |stderr|) ==> p.next > a || q.next > b)
  {
    hide CharAt, Text, LongestText, SkipLeading, ReadLog;
    var (m, n) := Split(|stdout| - a, |stderr| - b, maxBytes);
    ReadFromBoundary(stdout, a, m);
    ReadFromBoundary(stderr, b, n);
    SplitIsExact(|stdout| - a, |stderr| - b, maxBytes);
  }

  // ---------- polls without offsets ----------

  /** In a valid file at most three continuation bytes precede the next boundary. */
  lemma {:induction false} SkipToBoundary(file: seq<Byte>, i: nat, at: nat)
    requires i <= at <= |file| && Text(file, 0, i) && Text(file, i, |file|)
    ensures var m := SkipLeading(file, at, |file|); m <= at + 3 && Boundary(file, m)
    decreases at - i
  {
    if i < |file| {
      var n := CharAt(file, i, |file|);
      StartsNoContinuation(file, i, |file|);
      CharIsLocal(file, i, |file|, i + n);
      assert Text(file, i + n, i + n);
      assert Text(file, i, i + n);
      TextConcat(file, 0, i, i + n);
      if i < at && i + n <= at {
        SkipToBoundary(file, i + n, at);
      } else if i < at {
        SkipRestOfChar(file, i, at);
      }
    }
  }

  lemma SkipRestOfChar(file: seq<Byte>, i: nat, at: nat)
    requires i < at < |file| && at < i + CharAt(file, i, |file|) && Text(file, i, |file|)
    ensures SkipLeading(file, at, |file|) == i + CharAt(file, i, |file|)
  {
    var n := CharAt(file, i, |file|);
    assert forall k | i < k < i + n :: Continuation(file[k]);
    assert i + n < |file| ==> !Continuation(file[i + n]) by {
      if i + n < |file| {
        StartsNoContinuation(file, i + n, |file|);
      }
    }
    hide CharAt, Text;
    SkipRun(file, at, i + n);
  }

  lemma {:induction false} SkipRun(file: seq<Byte>, at: nat, end: nat)
    requires at <= end <= |file| && (forall k | at <= k < end :: Continuation(file[k])) && (end < |file| ==> !Continuation(file[end]))
    ensures SkipLeading(file, at, |file|) == end
    decreases end - at
  {
    if at < end {
      SkipRun(file, at + 1, end);
    }
  }

  /** Reading a valid file to its end from anywhere: all of it but the rest of a character cut at the front. */
  lemma ReadToItsEnd(file: seq<Byte>, at: nat, maxBytes: nat)
    requires Valid(file) && at <= |file| && |file| - at <= maxBytes
    ensures var page := ReadLog(file, at, maxBytes);
            && page.next == |file| && !page.more && |page.text| <= |file| - at < |page.text| + 4
            && page.text == file[|file| - |page.text|..] && Boundary(file, |file| - |page.text|)
    ensures at == 0 ==> ReadLog(file, at, maxBytes).text == file
  {
    SkipToBoundary(file, 0, at);
    var from := SkipLeading(file, at, |file|);
    TextRest(file, 0, from, |file|);
    assert LongestText(file, from, |file|) == |file|;
    assert at == 0 ==> from == 0 by {
      if |file| > 0 {
        StartsNoContinuation(file, 0, |file|);
      }
    }
    hide CharAt, Text, SkipLeading, LongestText;
  }

  /** The end of a log: all of it if it fits, else the whole characters of its last `room` bytes, with a note that more came before. */
  ghost predicate IsTail(file: seq<Byte>, room: nat, page: Page) {
    && page.next == |file|
    && (page.more <==> |file| > room)
    && (if |file| <= room then page.text == file
        else && |page.text| <= room < |page.text| + 4
             && page.text == file[|file| - |page.text|..] && Boundary(file, |file| - |page.text|))
  }

  /** A poll without an offset returns the end of that log, up to half the budget, whatever the poll asks of the other. */
  lemma PollWithoutOffset(stdout: seq<Byte>, stderr: seq<Byte>, stdoutOffset: Option<nat>, stderrOffset: Option<nat>, maxBytes: nat)
    ensures var (p, q) := ReadSeparate(stdout, stderr, stdoutOffset, stderrOffset, maxBytes);
            && (Valid(stdout) && stdoutOffset == None ==> IsTail(stdout, maxBytes / 2, p))
            && (Valid(stderr) && stderrOffset == None ==> IsTail(stderr, maxBytes / 2, q))
  {
    hide ReadLog, CharAt, Text, Valid, IsTail, Split, StartAt;
    var a, b := StartAt(stdoutOffset, |stdout|, maxBytes), StartAt(stderrOffset, |stderr|, maxBytes);
    HalfIsGranted(|stdout| - a, |stderr| - b, maxBytes);
    if Valid(stdout) && stdoutOffset == None {
      HalfIsLeft(|stdout|, maxBytes);
      TailOf(stdout, a, Split(|stdout| - a, |stderr| - b, maxBytes).0, maxBytes);
    }
    if Valid(stderr) && stderrOffset == None {
      HalfIsLeft(|stderr|, maxBytes);
      TailOf(stderr, b, Split(|stdout| - a, |stderr| - b, maxBytes).1, maxBytes);
    }
  }

  lemma HalfIsLeft(size: nat, maxBytes: nat)
    ensures size - StartAt(None, size, maxBytes) <= maxBytes / 2
  {
  }

  /** A stream with no more than half the budget to read may read it all. */
  lemma HalfIsGranted(stdoutAvailable: nat, stderrAvailable: nat, maxBytes: nat)
    ensures var (m, n) := Split(stdoutAvailable, stderrAvailable, maxBytes);
            (stdoutAvailable <= maxBytes / 2 ==> stdoutAvailable <= m) && (stderrAvailable <= maxBytes / 2 ==> stderrAvailable <= n)
  {
  }

  lemma TailOf(file: seq<Byte>, start: nat, limit: nat, maxBytes: nat)
    requires Valid(file) && start == StartAt(None, |file|, maxBytes) && |file| - start <= limit
    ensures var page := ReadLog(file, start, limit); IsTail(file, maxBytes / 2, page.(more := page.more || start > 0))
  {
    hide ReadLog, CharAt, Text, Valid, Boundary;
    ReadToItsEnd(file, start, limit);
  }

  /** A poll says that there is more of a log exactly when something lies before where it began to read or behind where it ended. */
  lemma MoreIff(stdout: seq<Byte>, stderr: seq<Byte>, stdoutOffset: Option<nat>, stderrOffset: Option<nat>, maxBytes: nat)
    ensures var (p, q) := ReadSeparate(stdout, stderr, stdoutOffset, stderrOffset, maxBytes);
            && (p.more <==> p.next < |stdout| || BeganInside(stdout, stdoutOffset, maxBytes))
            && (q.more <==> q.next < |stderr| || BeganInside(stderr, stderrOffset, maxBytes))
  {
    hide LongestText, SkipLeading;
  }

  predicate BeganInside(file: seq<Byte>, offset: Option<nat>, maxBytes: nat) {
    match offset
    case Some(at) => at > 0 && |file| > 0
    case None => |file| > maxBytes / 2
  }

  /** An offset behind the end reads nothing and answers with the end. */
  lemma BehindTheEnd(stdout: seq<Byte>, stderr: seq<Byte>, at: nat, stderrOffset: Option<nat>, maxBytes: nat)
    ensures at >= |stdout| ==> ReadSeparate(stdout, stderr, Some(at), stderrOffset, maxBytes).0 == Page([], |stdout|, |stdout| > 0)
    ensures at >= |stderr| ==> ReadSeparate(stdout, stderr, stderrOffset, Some(at), maxBytes).1 == Page([], |stderr|, |stderr| > 0)
    ensures at >= |stdout| + |stderr| ==> ReadCompatibility(stdout, stderr, at, maxBytes) == Page([], |stdout| + |stderr|, false)
  {
  }

  ghost predicate Advances(stdout: seq<Byte>, stderr: seq<Byte>, a: nat, b: nat, maxBytes: nat) {
    var (p, q) := ReadSeparate(stdout, stderr, Some(a), Some(b), maxBytes);
    p.next > a || q.next > b
  }

  /** A poll of `maxBytes` advances in every pair of valid logs that is not exhausted. */
  ghost predicate AlwaysAdvances(maxBytes: nat) {
    forall stdout: seq<Byte>, stderr: seq<Byte>, a: nat, b: nat ::
      Valid(stdout) && Valid(stderr) && Boundary(stdout, a) && Boundary(stderr, b) && (a < |stdout| || b < |stderr|) ==>
        Advances(stdout, stderr, a, b, maxBytes)
  }

  /** Splitting the budget raises the size needed for progress from four bytes to seven. */
  lemma SeparateNeedsSevenBytes(maxBytes: nat)
    ensures AlwaysAdvances(maxBytes) <==> maxBytes >= 7
  {
    if maxBytes >= 7 {
      forall stdout: seq<Byte>, stderr: seq<Byte>, a: nat, b: nat
        | Valid(stdout) && Valid(stderr) && Boundary(stdout, a) && Boundary(stderr, b) && (a < |stdout| || b < |stderr|)
        ensures Advances(stdout, stderr, a, b, maxBytes)
      {
        SeparatePages(stdout, stderr, a, b, maxBytes);
      }
    } else {
      TwoWideCharactersStall(maxBytes);
    }
  }

  const WIDE: seq<Byte> := [0xF0, 0x90, 0x80, 0x80]

  lemma WideIsOneChar()
    ensures |WIDE| == 4 && CharAt(WIDE, 0, 4) == 4 && Valid(WIDE) && Boundary(WIDE, 0)
  {
    assert CharAt(WIDE, 0, 4) == 4;
    assert Text(WIDE, 4, 4);
  }

  /** Two logs of one four-byte character each: neither half of a small budget fits one. */
  lemma TwoWideCharactersStall(maxBytes: nat)
    requires maxBytes < 7
    ensures Valid(WIDE) && Boundary(WIDE, 0) && |WIDE| == 4 && !Advances(WIDE, WIDE, 0, 0, maxBytes)
  {
    WideIsOneChar();
    StallOnWide(WIDE, maxBytes);
  }

  lemma StallOnWide(wide: seq<Byte>, maxBytes: nat)
    requires maxBytes < 7 && |wide| == 4 && CharAt(wide, 0, 4) == 4 && Valid(wide) && Boundary(wide, 0)
    ensures !Advances(wide, wide, 0, 0, maxBytes)
  {
    hide CharAt, Valid, Boundary, ReadLog;
    var (m, n) := Split(4, 4, maxBytes);
    ReadFromBoundary(wide, 0, m);
    ReadFromBoundary(wide, 0, n);
  }
}
