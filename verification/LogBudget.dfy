/// One log budget shared by the two streams of a command:
/// `cappedStreamWriter.Write` in cmd/agent/command_sessions.go.
/// Each call runs under the budget's mutex, so a run is any interleaving of whole calls.

module LogBudget {
  import opened Wrappers

  type Byte = int

  datatype Stream = Stdout | Stderr

  /** One log file with its truncated flag. `stopped` says a write failed, after which the copier of that stream gives up. */
  datatype Log = Log(saved: seq<Byte>, truncated: bool, stopped: bool)

  datatype Budget = Budget(remaining: int, stdout: Log, stderr: Log)

  function LogOf(b: Budget, stream: Stream): Log {
    if stream == Stdout then b.stdout else b.stderr
  }

  function Other(stream: Stream): Stream {
    if stream == Stdout then Stderr else Stdout
  }

  /** What the operating system does with a write: takes everything, or fails after at most `Some(n)` bytes. */
  type Fault = Option<nat>

  function Taken(part: seq<Byte>, fault: Fault): (n: nat)
    ensures n <= |part| && (fault == None ==> n == |part|)
  {
    if fault.Some? && fault.value < |part| then fault.value else |part|
  }

  /** The part of a chunk the budget admits. */
  function Admitted(b: Budget, data: seq<Byte>): (part: seq<Byte>)
    ensures part <= data
  {
    if |data| > b.remaining then data[..if b.remaining < 0 then 0 else b.remaining] else data
  }

  function WriteSpec(b: Budget, stream: Stream, data: seq<Byte>, fault: Fault): Budget {
    var part := Admitted(b, data);
    var n := Taken(part, fault);
    var before := LogOf(b, stream);
    var after := Log(before.saved + part[..n], before.truncated || |data| > b.remaining, |part| > 0 && fault.Some?);
    if stream == Stdout then Budget(b.remaining - n, after, b.stderr) else Budget(b.remaining - n, b.stdout, after)
  }

  class LogWriters {
    var remaining: int
    var stdoutTruncated: bool
    var stderrTruncated: bool
    var stdoutFile: seq<Byte>
    var stderrFile: seq<Byte>
    var stdoutStopped: bool
    var stderrStopped: bool

    ghost function State(): Budget
      reads this
    {
      Budget(remaining, Log(stdoutFile, stdoutTruncated, stdoutStopped), Log(stderrFile, stderrTruncated, stderrStopped))
    }

    constructor (maxLogBytes: nat)
      ensures State() == Start(maxLogBytes)
    {
      remaining := maxLogBytes;
      stdoutTruncated, stderrTruncated := false, false;
      stdoutFile, stderrFile := [], [];
      stdoutStopped, stderrStopped := false, false;
    }

    /** `Write` of the writer for one stream; the copier stops calling it after an error. */
    method Write(stream: Stream, data: seq<Byte>, fault: Fault) returns (n: nat, failed: bool)
      requires !LogOf(State(), stream).stopped
      modifies this
      ensures State() == WriteSpec(old(State()), stream, data, fault)
      ensures failed == LogOf(State(), stream).stopped && n == if failed then 0 else |data|
    {
      var part := data;
      if |part| > remaining {
        part := part[..if remaining > 0 then remaining else 0];
        if stream == Stderr {
          stderrTruncated := true;
        } else {
          stdoutTruncated := true;
        }
      }
      if |part| > 0 {
        var taken := Taken(part, fault);
        if stream == Stderr {
          stderrFile := stderrFile + part[..taken];
        } else {
          stdoutFile := stdoutFile + part[..taken];
        }
        remaining := remaining - taken;
        if fault.Some? {
          if stream == Stderr {
            stderrStopped := true;
          } else {
            stdoutStopped := true;
          }
          return 0, true;
        }
      }
      return |data|, false;
    }
  }

  // ---------- runs ----------

  function Start(maxLogBytes: nat): Budget {
    Budget(maxLogBytes, Log([], false, false), Log([], false, false))
  }

  /** One chunk the command produced on a stream. */
  datatype Chunk = Chunk(stream: Stream, data: seq<Byte>, fault: Fault)

  /** Chunks of a stream whose copier stopped are never written. */
  function Run(maxLogBytes: nat, chunks: seq<Chunk>): Budget
    decreases |chunks|
  {
    if |chunks| == 0 then Start(maxLogBytes)
    else
      var b, c := Run(maxLogBytes, chunks[..|chunks| - 1]), chunks[|chunks| - 1];
      if LogOf(b, c.stream).stopped then b else WriteSpec(b, c.stream, c.data, c.fault)
  }

  /** Everything the command produced on a stream. */
  function Produced(chunks: seq<Chunk>, stream: Stream): seq<Byte>
    decreases |chunks|
  {
    if |chunks| == 0 then []
    else
      var last := chunks[|chunks| - 1];
      Produced(chunks[..|chunks| - 1], stream) + (if last.stream == stream then last.data else [])
  }

  ghost predicate LogInv(b: Budget, chunks: seq<Chunk>, stream: Stream) {
    var log := LogOf(b, stream);
    && log.saved <= Produced(chunks, stream)
    && (!log.stopped ==> (log.saved == Produced(chunks, stream) <==> !log.truncated))
    && (!log.stopped && log.truncated ==> b.remaining == 0)
  }

  ghost predicate Inv(maxLogBytes: nat, chunks: seq<Chunk>, b: Budget) {
    && b.remaining >= 0
    && b.remaining + |b.stdout.saved| + |b.stderr.saved| == maxLogBytes
    && LogInv(b, chunks, Stdout) && LogInv(b, chunks, Stderr)
  }

  /** A chunk on one stream keeps that stream's log a prefix of the stream. */
  lemma WriteKeepsOwnLog(b: Budget, chunks: seq<Chunk>, c: Chunk)
    requires b.remaining >= 0 && LogInv(b, chunks, c.stream) && !LogOf(b, c.stream).stopped
    ensures LogInv(WriteSpec(b, c.stream, c.data, c.fault), chunks + [c], c.stream)
  {
    assert (chunks + [c])[..|chunks|] == chunks;
    var before, after := LogOf(b, c.stream), LogOf(WriteSpec(b, c.stream, c.data, c.fault), c.stream);
    var part := Admitted(b, c.data);
    assert part[..Taken(part, c.fault)] <= c.data;
    var whole := Produced(chunks, c.stream);
    assert Produced(chunks + [c], c.stream) == whole + c.data;
    if before.truncated {
      assert after.saved == before.saved;
    } else {
      assert before.saved == whole;
      assert |after.saved| == |whole| + Taken(part, c.fault);
    }
  }

  /** ... and leaves the other stream's log as it was, with no more budget than before. */
  lemma WriteKeepsOtherLog(b: Budget, chunks: seq<Chunk>, c: Chunk)
    requires b.remaining >= 0 && LogInv(b, chunks, Other(c.stream))
    ensures LogInv(WriteSpec(b, c.stream, c.data, c.fault), chunks + [c], Other(c.stream))
  {
    assert (chunks + [c])[..|chunks|] == chunks;
    assert Produced(chunks + [c], Other(c.stream)) == Produced(chunks, Other(c.stream)) + [];
  }

  lemma StoppedKeepsLog(b: Budget, chunks: seq<Chunk>, c: Chunk, stream: Stream)
    requires LogInv(b, chunks, stream) && LogOf(b, c.stream).stopped
    ensures LogInv(b, chunks + [c], stream)
  {
    assert (chunks + [c])[..|chunks|] == chunks;
    if stream != c.stream {
      assert Produced(chunks + [c], stream) == Produced(chunks, stream) + [];
    }
  }

  /**
   * In every interleaving of the two streams, with failing writes at any byte: what is saved and
   * what remains add up to the budget, each log is a prefix of its stream, and unless a write to it
   * failed a log is the whole stream exactly when its truncated flag is unset.
   */
  lemma {:induction false} RunKeepsInv(maxLogBytes: nat, chunks: seq<Chunk>)
    ensures Inv(maxLogBytes, chunks, Run(maxLogBytes, chunks))
    decreases |chunks|
  {
    if |chunks| > 0 {
      var init, c := chunks[..|chunks| - 1], chunks[|chunks| - 1];
      RunKeepsInv(maxLogBytes, init);
      assert chunks == init + [c];
      var b := Run(maxLogBytes, init);
      if LogOf(b, c.stream).stopped {
        StoppedKeepsLog(b, init, c, Stdout);
        StoppedKeepsLog(b, init, c, Stderr);
      } else {
        WriteKeepsOwnLog(b, init, c);
        WriteKeepsOtherLog(b, init, c);
      }
    }
  }

  function Least(a: int, b: int): int {
    if a < b then a else b
  }

  /**
   * One write in full: of what the budget admits, all is saved, or what a failing write took; the flag says whether the
   * budget ever cut the stream; and the stream stops exactly when a write of at least one byte failed.
   */
  lemma WriteAnswers(b: Budget, stream: Stream, data: seq<Byte>, fault: Fault)
    requires b.remaining >= 0
    ensures var before, after := LogOf(b, stream), LogOf(WriteSpec(b, stream, data, fault), stream);
            var admitted := Least(|data|, b.remaining);
            var saved := if fault.Some? then Least(fault.value, admitted) else admitted;
            && after.saved == before.saved + data[..saved]
            && (after.truncated <==> before.truncated || |data| > b.remaining)
            && (after.stopped <==> fault.Some? && admitted > 0)
            && WriteSpec(b, stream, data, fault).remaining == b.remaining - saved
            && LogOf(WriteSpec(b, stream, data, fault), Other(stream)) == LogOf(b, Other(stream))
  {
  }

  lemma {:induction false} NoFaultNeverStops(maxLogBytes: nat, chunks: seq<Chunk>)
    requires forall i | 0 <= i < |chunks| :: chunks[i].fault == None
    ensures !Run(maxLogBytes, chunks).stdout.stopped && !Run(maxLogBytes, chunks).stderr.stopped
    decreases |chunks|
  {
    if |chunks| > 0 {
      NoFaultNeverStops(maxLogBytes, chunks[..|chunks| - 1]);
    }
  }

  /** Without failing writes the two logs together save as many bytes as the budget allows. */
  lemma SavesAllItCan(maxLogBytes: nat, chunks: seq<Chunk>)
    requires forall i | 0 <= i < |chunks| :: chunks[i].fault == None
    ensures var b := Run(maxLogBytes, chunks);
            var produced := |Produced(chunks, Stdout)| + |Produced(chunks, Stderr)|;
            && |b.stdout.saved| + |b.stderr.saved| == (if produced < maxLogBytes then produced else maxLogBytes)
            && (b.stdout.truncated || b.stderr.truncated <==> produced > maxLogBytes)
  {
    RunKeepsInv(maxLogBytes, chunks);
    NoFaultNeverStops(maxLogBytes, chunks);
    var b := Run(maxLogBytes, chunks);
    if b.stdout.truncated {
      assert |b.stdout.saved| < |Produced(chunks, Stdout)|;
    }
    if b.stderr.truncated {
      assert |b.stderr.saved| < |Produced(chunks, Stderr)|;
    }
  }
}
