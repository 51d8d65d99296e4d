/** The per-sidecar log buffer, fed by two readers and read from its end. */
module LogRing {

  const CAPACITY: nat := 500

  datatype Stream = Stdout | Stderr

  datatype LogLine = LogLine(stream: Stream, text: string)

  /** The last n elements, or all of them. */
  function Suffix<T>(s: seq<T>, n: nat): (r: seq<T>)
    ensures |r| == if n <= |s| then n else |s|
  {
    if n <= |s| then s[|s| - n..] else s
  }

  function Reverse<T>(s: seq<T>): (r: seq<T>)
    ensures |r| == |s|
  {
    if s == [] then [] else Reverse(s[1..]) + [s[0]]
  }

  function Take<T>(s: seq<T>, n: nat): seq<T> {
    if n <= |s| then s[..n] else s
  }

  /** What `logs` returns, before formatting: the iterator is reversed, cut and reversed back. */
  function Tail<T>(s: seq<T>, lines: nat): seq<T> {
    Reverse(Take(Reverse(s), lines))
  }

  lemma {:induction false} ReverseAt<T>(s: seq<T>, i: nat)
    requires i < |s|
    ensures Reverse(s)[i] == s[|s| - 1 - i]
  {
    if i < |s| - 1 {
      ReverseAt(s[1..], i);
    }
  }

  /** Reversing, cutting and reversing back is taking a suffix. */
  lemma {:induction false} TailIsSuffix<T>(s: seq<T>, lines: nat)
    ensures Tail(s, lines) == Suffix(s, lines)
  {
    var cut := Take(Reverse(s), lines);
    forall i | 0 <= i < |cut| ensures Reverse(cut)[i] == Suffix(s, lines)[i] {
      ReverseAt(cut, i);
      ReverseAt(s, |cut| - 1 - i);
    }
  }

  function StreamName(stream: Stream): string {
    match stream
    case Stdout => "stdout"
    case Stderr => "stderr"
  }

  function Format(l: LogLine): string {
    "[" + StreamName(l.stream) + "] " + l.text
  }

  /** The lines of one stream. */
  function On(stream: Stream, s: seq<LogLine>): seq<LogLine> {
    if s == [] then []
    else On(stream, s[..|s| - 1]) + if s[|s| - 1].stream == stream then [s[|s| - 1]] else []
  }

  lemma {:induction false} OnConcat(stream: Stream, a: seq<LogLine>, b: seq<LogLine>)
    ensures On(stream, a + b) == On(stream, a) + On(stream, b)
  {
    if b == [] {
      assert a + b == a;
    } else {
      assert (a + b)[..|a + b| - 1] == a + b[..|b| - 1];
      OnConcat(stream, a, b[..|b| - 1]);
    }
  }

  /** Of each stream the buffer keeps the latest lines, none skipped. */
  lemma {:induction false} SuffixPerStream(stream: Stream, history: seq<LogLine>, n: nat)
    ensures
      var kept := On(stream, Suffix(history, n));
      |kept| <= |On(stream, history)| && kept == Suffix(On(stream, history), |kept|)
  {
    var k := |history| - |Suffix(history, n)|;
    OnConcat(stream, history[..k], history[k..]);
    assert history == history[..k] + history[k..];
  }

  /** What is kept, and of that the last n lines, are the latest lines. */
  lemma {:induction false} LatestKept(history: seq<LogLine>, n: nat)
    ensures Suffix(history, CAPACITY) == if |history| <= 500 then history else history[|history| - 500..]
    ensures
      var kept := if n <= |history| && n <= 500 then n else if |history| <= 500 then |history| else 500;
      Suffix(Suffix(history, CAPACITY), n) == history[|history| - kept..]
  {
  }

  class Ring {
    var buf: seq<LogLine>
    /** Everything ever appended. */
    ghost var history: seq<LogLine>

    ghost predicate Valid()
      reads this
    {
      buf == Suffix(history, CAPACITY)
    }

    constructor ()
      ensures Valid() && history == []
    {
      buf, history := [], [];
    }

    /** The body of the reader loop that runs under the lock. */
    method Append(l: LogLine)
      requires Valid()
      modifies this
      ensures Valid() && history == old(history) + [l]
    {
      if |buf| == CAPACITY {
        buf := buf[1..];
      }
      buf := buf + [l];
      history := history + [l];
    }

    method Logs(lines: nat) returns (r: seq<string>)
      requires Valid()
      ensures |r| == if lines <= |history| && lines <= 500 then lines else if |history| <= 500 then |history| else 500
      ensures forall i :: 0 <= i < |r| ==>
        var l := history[|history| - |r| + i];
        r[i] == (if l.stream.Stdout? then "[stdout] " else "[stderr] ") + l.text
    {
      TailIsSuffix(buf, lines);
      LatestKept(history, lines);
      var tail := Tail(buf, lines);
      hide Suffix, Tail;
      r := seq(|tail|, i requires 0 <= i < |tail| => Format(tail[i]));
    }

    /**
     Both readers, interleaved as the schedule says (`true`: the stdout reader appends its next
     line; a reader at its end does nothing): whatever the schedule, the buffer holds the latest
     lines of the joint history, and each stream appears in it in its own order.
     */
    method ReadBoth(out: seq<string>, err: seq<string>, schedule: seq<bool>) returns (i: nat, j: nat)
      requires Valid()
      modifies this
      ensures Valid() && i <= |out| && j <= |err|
      ensures On(Stdout, history) == On(Stdout, old(history)) + seq(i, k requires 0 <= k < i => LogLine(Stdout, out[k]))
      ensures On(Stderr, history) == On(Stderr, old(history)) + seq(j, k requires 0 <= k < j => LogLine(Stderr, err[k]))
      ensures |history| == |old(history)| + i + j
    {
      i, j := 0, 0;
      for t := 0 to |schedule|
        invariant Valid() && i <= |out| && j <= |err|
        invariant On(Stdout, history) == On(Stdout, old(history)) + seq(i, k requires 0 <= k < i => LogLine(Stdout, out[k]))
        invariant On(Stderr, history) == On(Stderr, old(history)) + seq(j, k requires 0 <= k < j => LogLine(Stderr, err[k]))
        invariant |history| == |old(history)| + i + j
      {
        if schedule[t] && i < |out| {
          OneMore(history, LogLine(Stdout, out[i]));
          Append(LogLine(Stdout, out[i]));
          i := i + 1;
        } else if !schedule[t] && j < |err| {
          OneMore(history, LogLine(Stderr, err[j]));
          Append(LogLine(Stderr, err[j]));
          j := j + 1;
        }
      }
    }
  }

  lemma {:induction false} OneMore(s: seq<LogLine>, l: LogLine)
    ensures forall stream :: On(stream, s + [l]) == On(stream, s) + if l.stream == stream then [l] else []
  {
    assert (s + [l])[..|s|] == s;
  }
}
