/// The line diff of cmd/agent/file_diff.go.
///
/// An edit script is judged only by replaying it: `Apply` rewrites the old lines
/// without looking at the new ones.  `Path` is the same thing seen on the edit
/// grid, extended without bound to the right and downwards because the forward
/// search does not clamp its coordinates.

module LineDiff {
  import opened Wrappers

  type Line = string

  datatype Kind = Keep | Delete | Insert

  /** One entry of the preview; `Keep` entries carry neither text nor number. */
  datatype DiffLine = DiffLine(kind: Kind, text: Line, number: nat)

  const MAX_LINES := 20000
  const LIMIT := 256
  const OFFSET := LIMIT + 1
  const ROW := 2 * LIMIT + 3

  // ---------- splitting a text into lines ----------

  function NormalizeNewlines(text: string): string {
    if |text| == 0 then ""
    else if |text| >= 2 && text[0] == '\r' && text[1] == '\n' then "\n" + NormalizeNewlines(text[2..])
    else [text[0]] + NormalizeNewlines(text[1..])
  }

  function TrimNewline(text: string): string {
    if |text| > 0 && text[|text| - 1] == '\n' then text[..|text| - 1] else text
  }

  function Split(text: string): (lines: seq<Line>)
    ensures |lines| > 0
  {
    if |text| == 0 then [""]
    else
      var rest := Split(text[1..]);
      if text[0] == '\n' then [""] + rest else [[text[0]] + rest[0]] + rest[1..]
  }

  function Lines(text: string): seq<Line> {
    if text == "" then [] else Split(TrimNewline(NormalizeNewlines(text)))
  }

  function Join(lines: seq<Line>): string {
    if |lines| == 0 then "" else if |lines| == 1 then lines[0] else lines[0] + "\n" + Join(lines[1..])
  }

  /** Splitting loses nothing and leaves no newline inside a line. */
  lemma {:induction false} SplitIsExact(text: string)
    ensures Join(Split(text)) == text
    ensures forall i | 0 <= i < |Split(text)| :: '\n' !in Split(text)[i]
  {
    if |text| > 0 {
      var rest := Split(text[1..]);
      SplitIsExact(text[1..]);
      if text[0] != '\n' {
        assert '\n' !in rest[0];
        assert text == [text[0]] + text[1..];
        if |rest| > 1 {
          assert ([[text[0]] + rest[0]] + rest[1..])[1..] == rest[1..];
        }
      } else {
        assert ([""] + rest)[1..] == rest;
        assert text == "\n" + text[1..];
      }
    }
  }

  // ---------- lines as they are written ----------

  /** The lines one after the other, each with the terminator written behind it; the last may have none. */
  function Written(lines: seq<Line>, ends: seq<string>): string
    requires |ends| <= |lines|
  {
    if |lines| == 0 then ""
    else if |ends| == 0 then lines[0] + Written(lines[1..], [])
    else lines[0] + ends[0] + Written(lines[1..], ends[1..])
  }

  /**
   * Terminators are "\n" and "\r\n".  A line has no newline, and no carriage return that would turn its
   * "\n" into "\r\n"; only the last line may have no terminator, unless it is empty.
   */
  ghost predicate Proper(lines: seq<Line>, ends: seq<string>) {
    && |ends| <= |lines| <= |ends| + 1
    && (forall i | 0 <= i < |lines| :: '\n' !in lines[i])
    && (forall i | 0 <= i < |ends| :: ends[i] == "\r\n" || (ends[i] == "\n" && (lines[i] == "" || lines[i][|lines[i]| - 1] != '\r')))
    && (|lines| == |ends| + 1 ==> lines[|ends|] != "")
  }

  lemma {:induction false} NormalizeLine(line: Line, end: string, rest: string)
    requires '\n' !in line
    requires end == "\r\n" || (end == "\n" && (line == "" || line[|line| - 1] != '\r'))
    ensures NormalizeNewlines(line + end + rest) == line + "\n" + NormalizeNewlines(rest)
    decreases |line|
  {
    var text := line + end + rest;
    if line == "" {
      assert text == end + rest;
      if end == "\n" {
        assert text[0] == '\n' && text[1..] == rest;
      } else {
        assert text[0] == '\r' && text[1] == '\n' && text[2..] == rest;
      }
      assert line + "\n" == "\n";
    } else {
      assert text[0] == line[0] && text[1..] == line[1..] + end + rest;
      assert line == [line[0]] + line[1..];
      assert !(text[0] == '\r' && text[1] == '\n') by {
        assert |line| > 1 ==> text[1] == line[1];
        assert |line| == 1 ==> text[1] == end[0];
      }
      NormalizeLine(line[1..], end, rest);
      assert line + "\n" + NormalizeNewlines(rest) == [line[0]] + (line[1..] + "\n" + NormalizeNewlines(rest));
    }
  }

  lemma {:induction false} NormalizeLast(line: Line)
    requires '\n' !in line
    ensures NormalizeNewlines(line) == line
    decreases |line|
  {
    if |line| > 0 {
      NormalizeLast(line[1..]);
      assert line == [line[0]] + line[1..];
    }
  }

  lemma {:induction false} SplitLine(line: Line, rest: string)
    requires '\n' !in line
    ensures Split(line) == [line] && Split(line + "\n" + rest) == [line] + Split(rest)
    decreases |line|
  {
    var text := line + "\n" + rest;
    if line == "" {
      assert text[0] == '\n' && text[1..] == rest;
    } else {
      assert text[0] == line[0] && text[1..] == line[1..] + "\n" + rest;
      SplitLine(line[1..], rest);
      assert line == [line[0]] + line[1..];
    }
  }

  lemma {:induction false} SplitOfJoin(lines: seq<Line>)
    requires |lines| > 0 && forall i | 0 <= i < |lines| :: '\n' !in lines[i]
    ensures Split(Join(lines)) == lines
    decreases |lines|
  {
    SplitLine(lines[0], Join(lines[1..]));
    if |lines| > 1 {
      SplitOfJoin(lines[1..]);
    }
  }

  lemma {:induction false} NormalizeWritten(lines: seq<Line>, ends: seq<string>)
    requires Proper(lines, ends) && |lines| > 0
    ensures NormalizeNewlines(Written(lines, ends)) == Join(lines) + (if |ends| == |lines| then "\n" else "")
    decreases |lines|
  {
    if |ends| == 0 {
      NormalizeLast(lines[0]);
      assert Written(lines, ends) == lines[0];
    } else {
      NormalizeLine(lines[0], ends[0], Written(lines[1..], ends[1..]));
      if |lines| > 1 {
        ProperRest(lines, ends);
        NormalizeWritten(lines[1..], ends[1..]);
      }
    }
  }

  lemma ProperRest(lines: seq<Line>, ends: seq<string>)
    requires Proper(lines, ends) && |ends| > 0
    ensures Proper(lines[1..], ends[1..])
  {
  }

  lemma {:induction false} JoinEndsInLast(lines: seq<Line>)
    requires |lines| > 0 && lines[|lines| - 1] != ""
    ensures var last := lines[|lines| - 1]; Join(lines) != "" && Join(lines)[|Join(lines)| - 1] == last[|last| - 1]
    decreases |lines|
  {
    if |lines| > 1 {
      JoinEndsInLast(lines[1..]);
    }
  }

  /** The lines of a text are those it was written with, whichever terminators stand behind them. */
  lemma LinesAreThoseWritten(lines: seq<Line>, ends: seq<string>)
    requires Proper(lines, ends)
    ensures Lines(Written(lines, ends)) == lines
  {
    if |lines| > 0 {
      NormalizeWritten(lines, ends);
      SplitOfJoin(lines);
      var joined, last := Join(lines), lines[|lines| - 1];
      if |ends| == |lines| {
        assert (joined + "\n")[..|joined|] == joined;
        assert TrimNewline(joined + "\n") == joined;
      } else {
        JoinEndsInLast(lines);
        assert last[|last| - 1] in last;
        assert joined + "" == joined;
      }
      assert Written(lines, ends) != "";
    }
  }

  /** Every text is written so: so the law above determines `Lines`. */
  lemma {:induction false} EveryTextIsWritten(text: string) returns (lines: seq<Line>, ends: seq<string>)
    ensures Proper(lines, ends) && Written(lines, ends) == text
    decreases |text|
  {
    if text == "" {
      lines, ends := [], [];
    } else if text[0] == '\n' {
      lines, ends := EveryTextIsWritten(text[1..]);
      lines, ends := [""] + lines, ["\n"] + ends;
      assert lines[0] + ends[0] == "\n";
    } else if |text| > 1 && text[0] == '\r' && text[1] == '\n' {
      lines, ends := EveryTextIsWritten(text[2..]);
      lines, ends := [""] + lines, ["\r\n"] + ends;
      assert lines[0] + ends[0] == "\r\n";
    } else {
      lines, ends := EveryTextIsWritten(text[1..]);
      if lines == [] {
        lines := [text];
      } else {
        LongerFirst(text[0], text, lines, ends);
        lines := [[text[0]] + lines[0]] + lines[1..];
      }
    }
  }

  /** A character in front of the first line, unless together they begin with a terminator. */
  lemma LongerFirst(c: char, text: string, lines: seq<Line>, ends: seq<string>)
    requires Proper(lines, ends) && |lines| > 0 && c != '\n'
    requires text == [c] + Written(lines, ends) && (c == '\r' && |text| > 1 ==> text[1] != '\n')
    ensures var longer := [[c] + lines[0]] + lines[1..]; Proper(longer, ends) && Written(longer, ends) == text
  {
    var longer := [[c] + lines[0]] + lines[1..];
    assert longer[1..] == lines[1..];
    assert |ends| > 0 && lines[0] == "" ==> lines[0] + ends[0] == ends[0];
  }

  // ---------- what a script means ----------

  /** Replays a script: `x` old lines are consumed and `out` is written so far. */
  ghost function Apply(a: seq<Line>, script: seq<DiffLine>, x: nat, out: seq<Line>): Option<seq<Line>>
    decreases |script|
  {
    if |script| == 0 then if x == |a| then Some(out) else None
    else
      var e, rest := script[0], script[1..];
      match e.kind
      case Keep => if x < |a| then Apply(a, rest, x + 1, out + [a[x]]) else None
      case Delete => if x < |a| && e.text == a[x] && e.number == x + 1 then Apply(a, rest, x + 1, out) else None
      case Insert => if e.number == |out| + 1 then Apply(a, rest, x, out + [e.text]) else None
  }

  /** The script turns `a` into `b`; every number is a 1-based position and every text the line there. */
  ghost predicate Rewrites(a: seq<Line>, b: seq<Line>, script: seq<DiffLine>) {
    Apply(a, script, 0, []) == Some(b)
  }

  ghost function Edits(script: seq<DiffLine>): nat {
    if |script| == 0 then 0 else Edits(script[1..]) + if script[0].kind == Keep then 0 else 1
  }

  /** The kept lines before the first change, which the source does not emit. */
  function KeepRun(n: nat): seq<DiffLine> {
    seq(n, _ => DiffLine(Keep, "", 0))
  }

  ghost predicate Bare(script: seq<DiffLine>) {
    forall e | e in script && e.kind == Keep :: e.text == "" && e.number == 0
  }

  // ---------- the edit grid ----------

  predicate Match(a: seq<Line>, b: seq<Line>, x: int, y: int) {
    0 <= x < |a| && 0 <= y < |b| && a[x] == b[y]
  }

  ghost function X(moves: seq<Kind>): nat {
    if |moves| == 0 then 0 else X(moves[..|moves| - 1]) + if moves[|moves| - 1] == Insert then 0 else 1
  }

  ghost function Y(moves: seq<Kind>): nat {
    if |moves| == 0 then 0 else Y(moves[..|moves| - 1]) + if moves[|moves| - 1] == Delete then 0 else 1
  }

  ghost function Cost(moves: seq<Kind>): nat {
    if |moves| == 0 then 0 else Cost(moves[..|moves| - 1]) + if moves[|moves| - 1] == Keep then 0 else 1
  }

  /** Every `Keep` stands on a match; `Delete` and `Insert` may leave the grid. */
  ghost predicate Path(a: seq<Line>, b: seq<Line>, moves: seq<Kind>) {
    |moves| == 0 ||
    var init := moves[..|moves| - 1];
    Path(a, b, init) && (moves[|moves| - 1] == Keep ==> Match(a, b, X(init), Y(init)))
  }

  lemma Snoc(a: seq<Line>, b: seq<Line>, moves: seq<Kind>, m: Kind)
    ensures X(moves + [m]) == X(moves) + if m == Insert then 0 else 1
    ensures Y(moves + [m]) == Y(moves) + if m == Delete then 0 else 1
    ensures Cost(moves + [m]) == Cost(moves) + if m == Keep then 0 else 1
    ensures Path(a, b, moves + [m]) <==> Path(a, b, moves) && (m == Keep ==> Match(a, b, X(moves), Y(moves)))
  {
    assert (moves + [m])[..|moves + [m]| - 1] == moves;
  }

  // ---------- furthest reaching points ----------

  /** Follows matching lines from (x, y). */
  ghost function Snake(a: seq<Line>, b: seq<Line>, x: nat, y: nat): (end: nat)
    ensures x <= end
    ensures end == x || (end <= |a| && end - x + y <= |b|)
    ensures !Match(a, b, end, end - x + y)
    decreases |a| - x
  {
    if Match(a, b, x, y) then Snake(a, b, x + 1, y + 1) else x
  }

  lemma {:induction false} SnakeMatches(a: seq<Line>, b: seq<Line>, x: nat, y: nat, at: nat)
    requires x <= at < Snake(a, b, x, y)
    ensures Match(a, b, at, at - x + y)
    decreases |a| - x
  {
    if x < at {
      SnakeMatches(a, b, x + 1, y + 1, at);
    }
  }

  predicate OnRound(d: int, k: int) {
    0 <= d && -d <= k <= d && (d + k) % 2 == 0
  }

  ghost predicate Reaches(a: seq<Line>, b: seq<Line>, d: int, k: int, moves: seq<Kind>) {
    Path(a, b, moves) && Cost(moves) == d && X(moves) - Y(moves) == k
  }

  /** `x` is the furthest point of diagonal `k` reachable with `d` edits, points outside the grid included. */
  ghost predicate IsFurthest(a: seq<Line>, b: seq<Line>, d: int, k: int, x: int) {
    (exists moves :: Reaches(a, b, d, k, moves) && X(moves) == x) &&
    (forall moves :: Reaches(a, b, d, k, moves) ==> X(moves) <= x)
  }

  lemma {:induction false} PathIsOnRound(a: seq<Line>, b: seq<Line>, moves: seq<Kind>)
    requires Path(a, b, moves)
    ensures OnRound(Cost(moves), X(moves) - Y(moves))
    decreases |moves|
  {
    if |moves| > 0 {
      PathIsOnRound(a, b, moves[..|moves| - 1]);
    }
  }

  lemma FurthestBounds(a: seq<Line>, b: seq<Line>, d: int, k: int, x: int)
    requires IsFurthest(a, b, d, k, x)
    ensures OnRound(d, k) && x >= 0 && x - k >= 0
  {
    var moves :| Reaches(a, b, d, k, moves) && X(moves) == x;
    PathIsOnRound(a, b, moves);
  }

  lemma {:induction false} ExtendBySnake(a: seq<Line>, b: seq<Line>, moves: seq<Kind>) returns (longer: seq<Kind>)
    requires Path(a, b, moves)
    ensures Reaches(a, b, Cost(moves), X(moves) - Y(moves), longer)
    ensures X(longer) == Snake(a, b, X(moves), Y(moves))
    decreases |a| - X(moves)
  {
    longer := moves;
    if Match(a, b, X(moves), Y(moves)) {
      Snoc(a, b, moves, Keep);
      longer := ExtendBySnake(a, b, moves + [Keep]);
    }
  }

  /** `start` covers what round `d - 1` reaches on the diagonals beside `k`, moved onto `k`. */
  ghost predicate CoversNeighbours(a: seq<Line>, b: seq<Line>, d: int, k: int, start: int) {
    && (forall moves :: Reaches(a, b, d - 1, k - 1, moves) ==> X(moves) + 1 <= start)
    && (forall moves :: Reaches(a, b, d - 1, k + 1, moves) ==> X(moves) <= start)
  }

  lemma {:induction false} SnakeCoversPaths(a: seq<Line>, b: seq<Line>, d: int, k: int, start: nat, moves: seq<Kind>)
    requires start - k >= 0 && Reaches(a, b, d, k, moves)
    requires if d == 0 then start == 0 else CoversNeighbours(a, b, d, k, start)
    ensures X(moves) <= Snake(a, b, start, start - k)
    decreases |moves|
  {
    if |moves| > 0 {
      var init, m := moves[..|moves| - 1], moves[|moves| - 1];
      match m
      case Keep =>
        SnakeCoversPaths(a, b, d, k, start, init);
      case Delete =>
        assert Reaches(a, b, d - 1, k - 1, init);
      case Insert =>
        assert Reaches(a, b, d - 1, k + 1, init);
    }
  }

  lemma FurthestAtRoundZero(a: seq<Line>, b: seq<Line>)
    ensures IsFurthest(a, b, 0, 0, Snake(a, b, 0, 0))
  {
    assert Path(a, b, []);
    var moves := ExtendBySnake(a, b, []);
    forall m | Reaches(a, b, 0, 0, m) ensures X(m) <= Snake(a, b, 0, 0) {
      SnakeCoversPaths(a, b, 0, 0, 0, m);
    }
  }

  lemma NeighboursCovered(a: seq<Line>, b: seq<Line>, d: int, k: int, left: int, right: int, down: bool)
    requires d > 0 && OnRound(d, k)
    requires k != -d ==> IsFurthest(a, b, d - 1, k - 1, left)
    requires k != d ==> IsFurthest(a, b, d - 1, k + 1, right)
    requires down <==> k == -d || (k != d && left < right)
    ensures CoversNeighbours(a, b, d, k, if down then right else left + 1)
  {
    var start := if down then right else left + 1;
    forall moves | Reaches(a, b, d - 1, k - 1, moves) ensures X(moves) + 1 <= start {
      PathIsOnRound(a, b, moves);
    }
    forall moves | Reaches(a, b, d - 1, k + 1, moves) ensures X(moves) <= start {
      PathIsOnRound(a, b, moves);
    }
  }

  /** The greedy step: take the neighbour that starts further, then follow the matching lines. */
  lemma FurthestStep(a: seq<Line>, b: seq<Line>, d: int, k: int, left: int, right: int, down: bool)
    requires d > 0 && OnRound(d, k)
    requires k != -d ==> IsFurthest(a, b, d - 1, k - 1, left)
    requires k != d ==> IsFurthest(a, b, d - 1, k + 1, right)
    requires down <==> k == -d || (k != d && left < right)
    ensures var start := if down then right else left + 1;
            start >= 0 && start - k >= 0 && IsFurthest(a, b, d, k, Snake(a, b, start, start - k))
  {
    var start := if down then right else left + 1;
    var longer := StepPath(a, b, d, k, if down then right else left, down);
    NeighboursCovered(a, b, d, k, left, right, down);
    forall moves | Reaches(a, b, d, k, moves) ensures X(moves) <= Snake(a, b, start, start - k) {
      SnakeCoversPaths(a, b, d, k, start, moves);
    }
  }

  lemma StepPath(a: seq<Line>, b: seq<Line>, d: int, k: int, x: int, down: bool) returns (longer: seq<Kind>)
    requires IsFurthest(a, b, d - 1, if down then k + 1 else k - 1, x)
    ensures var start := if down then x else x + 1;
            start >= 0 && start - k >= 0 && Reaches(a, b, d, k, longer) && X(longer) == Snake(a, b, start, start - k)
  {
    var k0, m := if down then k + 1 else k - 1, if down then Insert else Delete;
    var init :| Reaches(a, b, d - 1, k0, init) && X(init) == x;
    Snoc(a, b, init, m);
    longer := ExtendBySnake(a, b, init + [m]);
  }

  lemma FurthestIsUnique(a: seq<Line>, b: seq<Line>, d: int, k: int, x: int, x': int)
    requires IsFurthest(a, b, d, k, x) && IsFurthest(a, b, d, k, x')
    ensures x == x'
  {
    var m :| Reaches(a, b, d, k, m) && X(m) == x;
    var m' :| Reaches(a, b, d, k, m') && X(m') == x';
  }

  // ---------- leaving the grid ----------

  function Min(x: int, y: int): int { if x < y then x else y }

  /** Dropping the moves made outside the grid leaves a shorter path to the clipped point. */
  lemma {:induction false} Clip(a: seq<Line>, b: seq<Line>, moves: seq<Kind>) returns (inside: seq<Kind>)
    requires Path(a, b, moves)
    ensures Path(a, b, inside)
    ensures X(inside) == Min(X(moves), |a|) && Y(inside) == Min(Y(moves), |b|)
    ensures Cost(inside) == Cost(moves) - (X(moves) - X(inside)) - (Y(moves) - Y(inside))
    decreases |moves|
  {
    inside := [];
    if |moves| > 0 {
      var init, m := moves[..|moves| - 1], moves[|moves| - 1];
      inside := Clip(a, b, init);
      if m == Keep || (m == Delete && X(init) < |a|) || (m == Insert && Y(init) < |b|) {
        Snoc(a, b, inside, m);
        inside := inside + [m];
      }
    }
  }

  /** The exit test of the forward search succeeds on no diagonal of an earlier round. */
  ghost predicate NoExitBefore(a: seq<Line>, b: seq<Line>, d: int) {
    forall e, j, x {:trigger IsFurthest(a, b, e, j, x)} ::
      e < d && IsFurthest(a, b, e, j, x) ==> x < |a| || x - j < |b|
  }

  /** A path to the end with `e` edits makes round `e` exit at the latest. */
  lemma FullPathNeeds(a: seq<Line>, b: seq<Line>, d: nat, moves: seq<Kind>)
    requires NoExitBefore(a, b, d)
    requires Path(a, b, moves) && X(moves) == |a| && Y(moves) == |b|
    ensures Cost(moves) >= d
  {
    var e, k := Cost(moves), |a| - |b|;
    PathIsOnRound(a, b, moves);
    if e < d {
      assert Reaches(a, b, e, k, moves);
      var x := FurthestExists(a, b, e, k);
    }
  }

  lemma {:induction false} FurthestExists(a: seq<Line>, b: seq<Line>, d: int, k: int) returns (x: int)
    requires OnRound(d, k)
    ensures IsFurthest(a, b, d, k, x)
    decreases d
  {
    if d == 0 {
      FurthestAtRoundZero(a, b);
      x := Snake(a, b, 0, 0);
    } else {
      var left, right := 0, 0;
      if k != -d { left := FurthestExists(a, b, d - 1, k - 1); }
      if k != d { right := FurthestExists(a, b, d - 1, k + 1); }
      var down := k == -d || (k != d && left < right);
      FurthestStep(a, b, d, k, left, right, down);
      var start := if down then right else left + 1;
      x := Snake(a, b, start, start - k);
    }
  }

  /** Although nothing is clamped, the first exit is exactly at the end of both texts. */
  lemma FirstExitIsExact(a: seq<Line>, b: seq<Line>, d: nat, k: int, x: int)
    requires IsFurthest(a, b, d, k, x) && x >= |a| && x - k >= |b| && NoExitBefore(a, b, d)
    ensures x == |a| && k == |a| - |b|
  {
    var moves :| Reaches(a, b, d, k, moves) && X(moves) == x;
    var inside := Clip(a, b, moves);
    FullPathNeeds(a, b, d, inside);
  }

  // ---------- scripts are paths ----------

  lemma {:induction false} ApplyExtends(a: seq<Line>, b: seq<Line>, script: seq<DiffLine>, x: nat, out: seq<Line>)
    requires Apply(a, script, x, out) == Some(b)
    ensures out <= b
    decreases |script|
  {
    if |script| > 0 {
      var e := script[0];
      var next := if e.kind == Keep then out + [a[x]] else if e.kind == Delete then out else out + [e.text];
      ApplyExtends(a, b, script[1..], if e.kind == Insert then x else x + 1, next);
    }
  }

  lemma {:induction false} ScriptIsPath(a: seq<Line>, b: seq<Line>, script: seq<DiffLine>, x: nat, out: seq<Line>, sofar: seq<Kind>)
    returns (moves: seq<Kind>)
    requires Apply(a, script, x, out) == Some(b)
    requires Path(a, b, sofar) && X(sofar) == x && Y(sofar) == |out|
    ensures Path(a, b, moves) && X(moves) == |a| && Y(moves) == |b|
    ensures Cost(moves) == Cost(sofar) + Edits(script)
    decreases |script|
  {
    ApplyExtends(a, b, script, x, out);
    if |script| == 0 {
      moves := sofar;
    } else {
      var e, rest := script[0], script[1..];
      Snoc(a, b, sofar, e.kind);
      match e.kind
      case Keep =>
        ApplyExtends(a, b, rest, x + 1, out + [a[x]]);
        moves := ScriptIsPath(a, b, rest, x + 1, out + [a[x]], sofar + [Keep]);
      case Delete =>
        moves := ScriptIsPath(a, b, rest, x + 1, out, sofar + [Delete]);
      case Insert =>
        moves := ScriptIsPath(a, b, rest, x, out + [e.text], sofar + [Insert]);
    }
  }

  /** If no round before `d` exits then every script has at least `d` edits. */
  lemma NoCheaperScript(a: seq<Line>, b: seq<Line>, d: nat, script: seq<DiffLine>)
    requires NoExitBefore(a, b, d) && Rewrites(a, b, script)
    ensures Edits(script) >= d
  {
    var moves := ScriptIsPath(a, b, script, 0, [], []);
    FullPathNeeds(a, b, d, moves);
  }

  lemma {:induction false} ApplyKeepRun(a: seq<Line>, b: seq<Line>, script: seq<DiffLine>, x: nat, n: nat)
    requires x + n <= |a| && x + n <= |b| && a[x..x + n] == b[x..x + n]
    ensures Apply(a, KeepRun(n) + script, x, b[..x]) == Apply(a, script, x + n, b[..x + n])
    decreases n
  {
    if n == 0 {
      assert KeepRun(0) + script == script;
    } else {
      assert a[x] == a[x..x + n][0] == b[x..x + n][0] == b[x];
      assert b[..x] + [a[x]] == b[..x + 1];
      assert (KeepRun(n) + script)[1..] == KeepRun(n - 1) + script;
      forall i | x + 1 <= i < x + n ensures a[i] == b[i] {
        assert a[i] == a[x..x + n][i - x] == b[x..x + n][i - x];
      }
      assert a[x + 1..x + n] == b[x + 1..x + n];
      ApplyKeepRun(a, b, script, x + 1, n - 1);
    }
  }

  // ---------- the distance as a longest common subsequence ----------

  /** Length of a longest common subsequence of the first `i` and the first `j` lines. */
  ghost function Lcs(a: seq<Line>, b: seq<Line>, i: nat, j: nat): (n: nat)
    requires i <= |a| && j <= |b|
    decreases i + j
  {
    if i == 0 || j == 0 then 0
    else if a[i - 1] == b[j - 1] then Lcs(a, b, i - 1, j - 1) + 1
    else Max(Lcs(a, b, i - 1, j), Lcs(a, b, i, j - 1))
  }

  function Max(x: nat, y: nat): nat { if x < y then y else x }

  /** Insert/delete distance: the lines outside a longest common subsequence. */
  ghost function Distance(a: seq<Line>, b: seq<Line>): int {
    |a| + |b| - 2 * Lcs(a, b, |a|, |b|)
  }

  lemma {:induction false} LcsGrowsSlowly(a: seq<Line>, b: seq<Line>, i: nat, j: nat)
    requires i <= |a| && j <= |b|
    ensures i > 0 ==> Lcs(a, b, i - 1, j) <= Lcs(a, b, i, j) <= Lcs(a, b, i - 1, j) + 1
    ensures j > 0 ==> Lcs(a, b, i, j - 1) <= Lcs(a, b, i, j) <= Lcs(a, b, i, j - 1) + 1
    decreases i + j
  {
    if i > 0 && j > 0 {
      LcsGrowsSlowly(a, b, i - 1, j);
      LcsGrowsSlowly(a, b, i, j - 1);
      LcsGrowsSlowly(a, b, i - 1, j - 1);
    }
  }

  lemma {:induction false} PathCostsAtLeast(a: seq<Line>, b: seq<Line>, moves: seq<Kind>)
    requires Path(a, b, moves) && X(moves) <= |a| && Y(moves) <= |b|
    ensures Cost(moves) >= X(moves) + Y(moves) - 2 * Lcs(a, b, X(moves), Y(moves))
    decreases |moves|
  {
    if |moves| > 0 {
      PathCostsAtLeast(a, b, moves[..|moves| - 1]);
      LcsGrowsSlowly(a, b, X(moves), Y(moves));
    }
  }

  lemma {:induction false} LcsPath(a: seq<Line>, b: seq<Line>, i: nat, j: nat) returns (moves: seq<Kind>)
    requires i <= |a| && j <= |b|
    ensures Path(a, b, moves) && X(moves) == i && Y(moves) == j
    ensures Cost(moves) == i + j - 2 * Lcs(a, b, i, j)
    decreases i + j
  {
    if i == 0 && j == 0 {
      moves := [];
    } else if i > 0 && j > 0 && a[i - 1] == b[j - 1] {
      var init := LcsPath(a, b, i - 1, j - 1);
      Snoc(a, b, init, Keep);
      moves := init + [Keep];
    } else if j == 0 || (i > 0 && Lcs(a, b, i - 1, j) >= Lcs(a, b, i, j - 1)) {
      var init := LcsPath(a, b, i - 1, j);
      Snoc(a, b, init, Delete);
      moves := init + [Delete];
    } else {
      var init := LcsPath(a, b, i, j - 1);
      Snoc(a, b, init, Insert);
      moves := init + [Insert];
    }
  }

  lemma ScriptCostsAtLeastDistance(a: seq<Line>, b: seq<Line>, script: seq<DiffLine>)
    requires Rewrites(a, b, script)
    ensures Edits(script) >= Distance(a, b)
  {
    var moves := ScriptIsPath(a, b, script, 0, [], []);
    PathCostsAtLeast(a, b, moves);
  }

  lemma DistanceIsAtLeast(a: seq<Line>, b: seq<Line>, d: nat)
    requires NoExitBefore(a, b, d)
    ensures Distance(a, b) >= d
  {
    var moves := LcsPath(a, b, |a|, |b|);
    FullPathNeeds(a, b, d, moves);
  }

  // ---------- reading a script ----------

  /** Line numbers are true positions, carry the right text and rise along the script. */
  lemma {:induction false} NumbersArePositions(a: seq<Line>, b: seq<Line>, script: seq<DiffLine>, x: nat, out: seq<Line>)
    requires Apply(a, script, x, out) == Some(b)
    ensures forall i | 0 <= i < |script| && script[i].kind == Delete ::
              x < script[i].number <= |a| && script[i].text == a[script[i].number - 1]
    ensures forall i | 0 <= i < |script| && script[i].kind == Insert ::
              |out| < script[i].number <= |b| && script[i].text == b[script[i].number - 1]
    ensures forall i, j | 0 <= i < j < |script| && script[i].kind == script[j].kind != Keep ::
              script[i].number < script[j].number
    decreases |script|
  {
    if |script| > 0 {
      var e, rest := script[0], script[1..];
      assert script == [e] + rest;
      match e.kind
      case Keep =>
        NumbersArePositions(a, b, rest, x + 1, out + [a[x]]);
      case Delete =>
        NumbersArePositions(a, b, rest, x + 1, out);
      case Insert =>
        ApplyExtends(a, b, rest, x, out + [e.text]);
        NumbersArePositions(a, b, rest, x, out + [e.text]);
    }
  }

  /** The preview has no rows exactly when both texts have the same lines. */
  lemma NoEditsMeansSameLines(a: seq<Line>, b: seq<Line>)
    ensures Distance(a, b) == 0 <==> a == b
  {
    var moves := LcsPath(a, b, |a|, |b|);
    if Distance(a, b) == 0 {
      FreePathKeepsEqualLines(a, b, moves);
      assert a == a[..|a|] && b == b[..|b|];
    } else if a == b {
      ApplyKeepRun(a, b, [], 0, |a|);
      assert KeepRun(|a|) + [] == KeepRun(|a|);
      assert b[..0] == [] && b[..0 + |a|] == b;
      EditsOfKeepRun(|a|, []);
      ScriptCostsAtLeastDistance(a, b, KeepRun(|a|));
      PathCostsAtLeast(a, b, moves);
    }
  }

  lemma {:induction false} EditsOfKeepRun(n: nat, script: seq<DiffLine>)
    ensures Edits(KeepRun(n) + script) == Edits(script)
  {
    if n == 0 {
      assert KeepRun(0) + script == script;
    } else {
      assert (KeepRun(n) + script)[1..] == KeepRun(n - 1) + script;
      EditsOfKeepRun(n - 1, script);
    }
  }

  lemma {:induction false} FreePathKeepsEqualLines(a: seq<Line>, b: seq<Line>, moves: seq<Kind>)
    requires Path(a, b, moves) && Cost(moves) == 0
    ensures X(moves) == Y(moves) <= Min(|a|, |b|) && a[..X(moves)] == b[..X(moves)]
    decreases |moves|
  {
    if |moves| > 0 {
      FreePathKeepsEqualLines(a, b, moves[..|moves| - 1]);
    }
  }

  // ---------- the saved rounds ----------

  /** Row `row` holds round `s` on every diagonal below `below`. */
  ghost predicate Holds(a: seq<Line>, b: seq<Line>, row: seq<int>, s: int, below: int)
  {
    |row| == ROW && s <= LIMIT &&
    forall j | OnRound(s, j) && j < below :: IsFurthest(a, b, s, j, row[OFFSET + j])
  }

  ghost predicate Saved(a: seq<Line>, b: seq<Line>, trace: seq<seq<int>>) {
    |trace| <= LIMIT + 1 && forall s | 0 <= s < |trace| :: Holds(a, b, trace[s], s, s + 1)
  }

  /** The step round `d` takes into diagonal `k`, read off the row of the round before. */
  predicate Down(row: seq<int>, d: int, k: int)
    requires |row| == ROW && OnRound(d, k) && d <= LIMIT
  {
    k == -d || (k != d && row[OFFSET + k - 1] < row[OFFSET + k + 1])
  }

  function StartX(row: seq<int>, d: int, k: int): int
    requires |row| == ROW && OnRound(d, k) && d <= LIMIT
  {
    if Down(row, d, k) then row[OFFSET + k + 1] else row[OFFSET + k - 1] + 1
  }

  lemma RowStep(a: seq<Line>, b: seq<Line>, row: seq<int>, d: int, k: int)
    requires |row| == ROW && OnRound(d, k) && d <= LIMIT
    requires if d == 0 then row[OFFSET + 1] == 0 else Holds(a, b, row, d - 1, d)
    ensures StartX(row, d, k) >= 0 && StartX(row, d, k) - k >= 0
    ensures IsFurthest(a, b, d, k, Snake(a, b, StartX(row, d, k), StartX(row, d, k) - k))
  {
    if d == 0 {
      FurthestAtRoundZero(a, b);
    } else {
      assert k != -d ==> OnRound(d - 1, k - 1);
      assert k != d ==> OnRound(d - 1, k + 1);
      FurthestStep(a, b, d, k, row[OFFSET + k - 1], row[OFFSET + k + 1], Down(row, d, k));
    }
  }

  /** Round `d` reached `x` from its neighbour in the round before along one run of matches. */
  lemma CameFrom(a: seq<Line>, b: seq<Line>, row: seq<int>, d: int, k: int, x: int)
    requires 0 < d <= LIMIT && Holds(a, b, row, d - 1, d) && IsFurthest(a, b, d, k, x)
    ensures OnRound(d, k)
    ensures var start, prevK := StartX(row, d, k), if Down(row, d, k) then k + 1 else k - 1;
            && IsFurthest(a, b, d - 1, prevK, row[OFFSET + prevK])
            && start >= 0 && start - k >= 0 && start <= x == Snake(a, b, start, start - k)
  {
    FurthestBounds(a, b, d, k, x);
    RowStep(a, b, row, d, k);
    FurthestIsUnique(a, b, d, k, x, Snake(a, b, StartX(row, d, k), StartX(row, d, k) - k));
    assert OnRound(d - 1, if Down(row, d, k) then k + 1 else k - 1);
  }

  function Reverse<T>(s: seq<T>): seq<T> {
    if |s| == 0 then [] else Reverse(s[1..]) + [s[0]]
  }

  lemma {:induction false} ReverseSnoc<T>(s: seq<T>, t: T)
    ensures Reverse(s + [t]) == [t] + Reverse(s)
  {
    if |s| > 0 {
      assert (s + [t])[1..] == s[1..] + [t];
      ReverseSnoc(s[1..], t);
    } else {
      assert s + [t] == [t];
    }
  }

  /** The diagonal run that a round appended can be walked back line by line. */
  lemma BackOverSnake(a: seq<Line>, b: seq<Line>, start: nat, k: int, x: nat)
    requires 0 <= start - k && start < x <= Snake(a, b, start, start - k)
    ensures Match(a, b, x - 1, x - 1 - k)
  {
    SnakeMatches(a, b, start, start - k, x - 1);
  }

  /** The un-emitted common prefix of the two texts. */
  ghost function Prefix(a: seq<Line>, b: seq<Line>): nat {
    Snake(a, b, 0, 0)
  }

  lemma PrefixIsCommon(a: seq<Line>, b: seq<Line>)
    ensures Prefix(a, b) <= |a| && Prefix(a, b) <= |b|
    ensures a[..Prefix(a, b)] == b[..Prefix(a, b)]
    ensures Prefix(a, b) == |a| || Prefix(a, b) == |b| || a[Prefix(a, b)] != b[Prefix(a, b)]
  {
    var p := Prefix(a, b);
    forall i | 0 <= i < p ensures a[i] == b[i] {
      SnakeMatches(a, b, 0, 0, i);
    }
  }

  /** The replay from (x, y) completes `b` at the given cost. */
  ghost predicate Completes(a: seq<Line>, b: seq<Line>, script: seq<DiffLine>, x: int, y: int, cost: int) {
    0 <= x <= |a| && 0 <= y <= |b| && Bare(script) && Edits(script) == cost && Apply(a, script, x, b[..y]) == Some(b)
  }

  const MATCHED := DiffLine(Keep, "", 0)

  /** Stepping back over one matching line. */
  lemma PrependKeep(a: seq<Line>, b: seq<Line>, script: seq<DiffLine>, x: int, y: int, cost: int)
    requires Completes(a, b, script, x, y, cost) && Match(a, b, x - 1, y - 1)
    ensures Completes(a, b, [MATCHED] + script, x - 1, y - 1, cost)
  {
    assert ([MATCHED] + script)[1..] == script;
    assert b[..y - 1] + [a[x - 1]] == b[..y];
  }

  /** Stepping back over one inserted line. */
  lemma PrependInsert(a: seq<Line>, b: seq<Line>, script: seq<DiffLine>, x: int, y: int, cost: int)
    requires Completes(a, b, script, x, y, cost) && y > 0
    ensures Completes(a, b, [DiffLine(Insert, b[y - 1], y)] + script, x, y - 1, cost + 1)
  {
    assert ([DiffLine(Insert, b[y - 1], y)] + script)[1..] == script;
    assert b[..y - 1] + [b[y - 1]] == b[..y];
  }

  /** Stepping back over one deleted line. */
  lemma PrependDelete(a: seq<Line>, b: seq<Line>, script: seq<DiffLine>, x: int, y: int, cost: int)
    requires Completes(a, b, script, x, y, cost) && x > 0
    ensures Completes(a, b, [DiffLine(Delete, a[x - 1], x)] + script, x - 1, y, cost + 1)
  {
    assert ([DiffLine(Delete, a[x - 1], x)] + script)[1..] == script;
  }

  /** Walks the saved rounds back from the end of both texts. */
  method Backtrack(a: seq<Line>, b: seq<Line>, trace: seq<seq<int>>, d: nat) returns (result: seq<DiffLine>)
    requires Saved(a, b, trace) && |trace| == d <= LIMIT
    requires IsFurthest(a, b, d, |a| - |b|, |a|)
    ensures Completes(a, b, result, Prefix(a, b), Prefix(a, b), d)
  {
    result := [];
    ghost var script: seq<DiffLine> := [];
    var x, y := |a|, |b|;
    assert b[..y] == b;
    var step := d;
    while step > 0
      invariant 0 <= step <= d
      invariant IsFurthest(a, b, step, x - y, x)
      invariant script == Reverse(result) && Completes(a, b, script, x, y, d - step)
    {
      x, y, result, script := BacktrackRound(a, b, trace[step - 1], step, x, y, result, script, d - step);
      step := step - 1;
    }
    FurthestBounds(a, b, 0, x - y, x);
    FurthestAtRoundZero(a, b);
    FurthestIsUnique(a, b, 0, 0, x, Snake(a, b, 0, 0));
    result := Reverse(result);
  }

  /** The inner loop of the walk: over the matching lines back to the start of the run. */
  method BackOverRun(a: seq<Line>, b: seq<Line>, ghost start: int, prevX: int, prevY: int, x0: int, y0: int,
                     result0: seq<DiffLine>, ghost script0: seq<DiffLine>, ghost cost: int)
    returns (x: int, y: int, result: seq<DiffLine>, ghost script: seq<DiffLine>)
    requires start >= 0 && start - (x0 - y0) >= 0
    requires start <= x0 <= Snake(a, b, start, start - (x0 - y0))
    requires (prevX == start && prevY < start - (x0 - y0)) || (prevX < start && prevY == start - (x0 - y0))
    requires script0 == Reverse(result0) && Completes(a, b, script0, x0, y0, cost)
    ensures x == start && y == start - (x0 - y0)
    ensures script == Reverse(result) && Completes(a, b, script, x, y, cost)
  {
    x, y, result, script := x0, y0, result0, script0;
    while x > prevX && y > prevY
      invariant x - y == x0 - y0 && start <= x <= x0
      invariant script == Reverse(result) && Completes(a, b, script, x, y, cost)
    {
      BackOverSnake(a, b, start, x0 - y0, x);
      PrependKeep(a, b, script, x, y, cost);
      ReverseSnoc(result, MATCHED);
      result := result + [MATCHED];
      script := [MATCHED] + script;
      x, y := x - 1, y - 1;
    }
  }

  /** One round of the walk: over the matching lines, then over the edit before them. */
  method BacktrackRound(a: seq<Line>, b: seq<Line>, previous: seq<int>, step: int, x0: nat, y0: nat,
                        result0: seq<DiffLine>, ghost script0: seq<DiffLine>, ghost cost: nat)
    returns (x: int, y: int, result: seq<DiffLine>, ghost script: seq<DiffLine>)
    requires 0 < step <= LIMIT && Holds(a, b, previous, step - 1, step)
    requires IsFurthest(a, b, step, x0 - y0, x0)
    requires script0 == Reverse(result0) && Completes(a, b, script0, x0, y0, cost)
    ensures IsFurthest(a, b, step - 1, x - y, x)
    ensures script == Reverse(result) && Completes(a, b, script, x, y, cost + 1)
  {
    var k := x0 - y0;
    CameFrom(a, b, previous, step, k, x0);
    ghost var start := StartX(previous, step, k);
    hide IsFurthest, Snake, Apply;
    var prevK := k - 1;
    if k == -step || (k != step && previous[OFFSET + k - 1] < previous[OFFSET + k + 1]) {
      prevK := k + 1;
    }
    var prevX, prevY := previous[OFFSET + prevK], previous[OFFSET + prevK] - prevK;
    x, y, result, script := BackOverRun(a, b, start, prevX, prevY, x0, y0, result0, script0, cost);
    var entry: DiffLine;
    if x == prevX {
      PrependInsert(a, b, script, x, y, cost);
      entry := DiffLine(Insert, b[y - 1], y);
      y := y - 1;
    } else {
      PrependDelete(a, b, script, x, y, cost);
      entry := DiffLine(Delete, a[x - 1], x);
      x := x - 1;
    }
    ReverseSnoc(result, entry);
    result := result + [entry];
    script := [entry] + script;
  }

  /** No script that rewrites `a` into `b` has fewer than `n` edits. */
  ghost predicate NeedsEdits(a: seq<Line>, b: seq<Line>, n: int) {
    forall script | Rewrites(a, b, script) :: n <= Edits(script)
  }

  /** The bounded greedy search over lines. */
  method ChangedLinesOf(a: seq<Line>, b: seq<Line>) returns (result: seq<DiffLine>, ok: bool)
    ensures ok ==> Rewrites(a, b, KeepRun(Prefix(a, b)) + result) && Bare(result)
    ensures ok ==> |a| + |b| <= 20000 && Edits(result) <= 256 && NeedsEdits(a, b, Edits(result))
    ensures ok <==> |a| + |b| <= 20000 && Distance(a, b) <= 256
    ensures ok ==> Edits(result) == Distance(a, b)
  {
    if |a| + |b| > MAX_LINES {
      return [], false;
    }
    var v := new int[ROW](_ => 0);
    var trace: seq<seq<int>> := [];
    var d := 0;
    while d <= LIMIT
      invariant 0 <= d <= LIMIT + 1 && |trace| == d && v.Length == ROW
      invariant Saved(a, b, trace) && NoExitBefore(a, b, d)
      invariant if d == 0 then v[OFFSET + 1] == 0 else Holds(a, b, v[..], d - 1, d)
    {
      var k := -d;
      while k <= d
        invariant -d <= k <= d + 2 && (d + k) % 2 == 0
        invariant d == 0 && k == 0 ==> v[OFFSET + 1] == 0
        invariant d > 0 ==> Holds(a, b, v[..], d - 1, d)
        invariant Holds(a, b, v[..], d, k) && InsideBelow(a, b, v[..], d, k)
      {
        ghost var row := v[..];
        var x := SearchDiagonal(a, b, v, d, k);
        if x >= |a| && x - k >= |b| {
          FirstExitIsExact(a, b, d, k, x);
          result := Backtrack(a, b, trace, d);
          FinishScript(a, b, d, result);
          return result, true;
        }
        CellStored(a, b, row, d, k, x);
        k := k + 2;
      }
      RoundWithoutExit(a, b, d, v[..]);
      trace := trace + [v[..]];
      d := d + 1;
    }
    DistanceIsAtLeast(a, b, d);
    return [], false;
  }

  /** Overwriting one cell extends round `d` and leaves the other parity, round `d - 1`, alone. */
  lemma CellStored(a: seq<Line>, b: seq<Line>, row: seq<int>, d: int, k: int, x: int)
    requires 0 <= d <= LIMIT && OnRound(d, k) && IsFurthest(a, b, d, k, x)
    requires Holds(a, b, row, d, k) && InsideBelow(a, b, row, d, k)
    requires x < |a| || x - k < |b|
    ensures var next := row[OFFSET + k := x];
            && Holds(a, b, next, d, k + 2) && InsideBelow(a, b, next, d, k + 2)
            && (d > 0 && Holds(a, b, row, d - 1, d) ==> Holds(a, b, next, d - 1, d))
  {
  }

  /** No stored point of round `d` below diagonal `below` passed the exit test. */
  ghost predicate InsideBelow(a: seq<Line>, b: seq<Line>, row: seq<int>, d: int, below: int) {
    |row| == ROW && d <= LIMIT &&
    forall j | OnRound(d, j) && j < below :: row[OFFSET + j] < |a| || row[OFFSET + j] - j < |b|
  }

  lemma RoundWithoutExit(a: seq<Line>, b: seq<Line>, d: nat, row: seq<int>)
    requires NoExitBefore(a, b, d)
    requires Holds(a, b, row, d, d + 1) && InsideBelow(a, b, row, d, d + 1)
    ensures NoExitBefore(a, b, d + 1)
  {
    forall e, j, x | e < d + 1 && IsFurthest(a, b, e, j, x) ensures x < |a| || x - j < |b| {
      FurthestBounds(a, b, e, j, x);
      if e == d {
        FurthestIsUnique(a, b, d, j, x, row[OFFSET + j]);
      }
    }
  }

  /** Body of the inner loop: overwrites one cell of `v` with the furthest point of its diagonal. */
  method SearchDiagonal(a: seq<Line>, b: seq<Line>, v: array<int>, d: int, k: int) returns (x: int)
    requires v.Length == ROW && d <= LIMIT && OnRound(d, k)
    requires if d == 0 then v[OFFSET + 1] == 0 else Holds(a, b, v[..], d - 1, d)
    modifies v
    ensures v[..] == old(v[..])[OFFSET + k := x] && IsFurthest(a, b, d, k, x)
  {
    RowStep(a, b, v[..], d, k);
    x := v[OFFSET + k - 1] + 1;
    if k == -d || (k != d && v[OFFSET + k - 1] < v[OFFSET + k + 1]) {
      x := v[OFFSET + k + 1];
    }
    ghost var start := x;
    assert start == StartX(v[..], d, k);
    var y := x - k;
    while x < |a| && y < |b| && a[x] == b[y]
      invariant x - y == k && x >= 0 && y >= 0
      invariant Snake(a, b, x, y) == Snake(a, b, start, start - k)
    {
      x, y := x + 1, y + 1;
    }
    v[OFFSET + k] := x;
  }

  /** A backtracked script replays from the start and no script is cheaper. */
  lemma FinishScript(a: seq<Line>, b: seq<Line>, d: nat, result: seq<DiffLine>)
    requires NoExitBefore(a, b, d) && Completes(a, b, result, Prefix(a, b), Prefix(a, b), d)
    ensures Rewrites(a, b, KeepRun(Prefix(a, b)) + result)
    ensures NeedsEdits(a, b, Edits(result)) && Edits(result) == Distance(a, b)
  {
    PrefixIsCommon(a, b);
    ApplyKeepRun(a, b, result, 0, Prefix(a, b));
    assert b[..0] == [];
    forall script | Rewrites(a, b, script) ensures d <= Edits(script) {
      NoCheaperScript(a, b, d, script);
    }
    var script := KeepRun(Prefix(a, b)) + result;
    EditsOfKeepRun(Prefix(a, b), result);
    ScriptCostsAtLeastDistance(a, b, script);
    DistanceIsAtLeast(a, b, d);
  }

  /** `changedLines`: the search over the lines of two texts. */
  method ChangedLines(before: string, after: string) returns (result: seq<DiffLine>, ok: bool)
    ensures var a, b := Lines(before), Lines(after);
            && (ok <==> |a| + |b| <= 20000 && Distance(a, b) <= 256)
            && (ok ==> Rewrites(a, b, KeepRun(Prefix(a, b)) + result) && Bare(result))
            && (ok ==> Edits(result) == Distance(a, b) && NeedsEdits(a, b, Edits(result)))
  {
    result, ok := ChangedLinesOf(Lines(before), Lines(after));
  }
}
