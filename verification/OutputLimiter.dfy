/** The output limit shared by the standard output and standard error of one `run`. */
module OutputLimiter {
  import opened Common

  class OutputLimiter {
    var remaining: nat
    var truncatedFlag: bool

    constructor (limit: nat)
      ensures remaining == limit && !truncatedFlag
    {
      remaining, truncatedFlag := limit, false;
    }
  }

  class LimitedOutputWriter {
    const limiter: OutputLimiter
    var buffer: seq<Byte>

    constructor (limiter: OutputLimiter)
      ensures this.limiter == limiter && buffer == []
    {
      this.limiter := limiter;
      buffer := [];
    }

    /** Keeps what still fits and always reports the whole write as done. */
    method Write(data: seq<Byte>) returns (written: nat)
      modifies this`buffer, limiter
      ensures written == |data|
      ensures var kept := Kept(old(limiter.remaining), data);
              && buffer == old(buffer) + kept
              && limiter.remaining == old(limiter.remaining) - |kept|
              && limiter.truncatedFlag == (old(limiter.truncatedFlag) || kept != data)
    {
      var kept := |data|;
      if kept > limiter.remaining {
        kept := limiter.remaining;
        limiter.truncatedFlag := true;
      }
      if kept > 0 {
        buffer := buffer + data[..kept];
        limiter.remaining := limiter.remaining - kept;
      }
      if kept < |data| {
        limiter.truncatedFlag := true;
      }
      written := |data|;
    }
  }

  /** The part of a write that fits. */
  function Kept(remaining: nat, data: seq<Byte>): seq<Byte> {
    if |data| <= remaining then data else data[..remaining]
  }

  datatype Stream = Stdout | Stderr

  datatype Write = Write(stream: Stream, data: seq<Byte>)

  /** The two buffers, what is left, and the flag, after a sequence of writes. */
  datatype Output = Output(stdout: seq<Byte>, stderr: seq<Byte>, remaining: nat, truncated: bool)

  function After(limit: nat, writes: seq<Write>): Output {
    if writes == [] then Output([], [], limit, false)
    else
      var before, last := After(limit, writes[..|writes| - 1]), writes[|writes| - 1];
      var kept := Kept(before.remaining, last.data);
      Output(
        if last.stream.Stdout? then before.stdout + kept else before.stdout,
        if last.stream.Stderr? then before.stderr + kept else before.stderr,
        before.remaining - |kept|,
        before.truncated || kept != last.data)
  }

  /** Everything that was offered to one stream. */
  function Offered(writes: seq<Write>, stream: Stream): seq<Byte> {
    if writes == [] then []
    else
      var earlier, last := writes[..|writes| - 1], writes[|writes| - 1];
      Offered(earlier, stream) + if last.stream == stream then last.data else []
  }

  /** For any interleaving of writes: no byte is lost or invented against the limit, each
      buffer is a prefix of its own stream, the flag says exactly whether more was offered
      than the limit allows, and a stream is only cut when the whole limit is used up. */
  lemma {:induction false} SharedLimit(limit: nat, writes: seq<Write>)
    ensures var o, out, err := After(limit, writes), Offered(writes, Stdout), Offered(writes, Stderr);
            && |o.stdout| + |o.stderr| + o.remaining == limit
            && o.stdout <= out && o.stderr <= err
            && (o.truncated <==> |out| + |err| > limit)
            && (o.truncated ==> o.remaining == 0)
            && (!o.truncated ==> o.stdout == out && o.stderr == err)
  {
    if writes != [] {
      SharedLimit(limit, writes[..|writes| - 1]);
    }
  }

  /** The two writers of one limiter, driven by any interleaving of writes, end up exactly as
      `After` says. */
  method RunWrites(limit: nat, writes: seq<Write>) returns (output: Output)
    ensures output == After(limit, writes)
  {
    var limiter := new OutputLimiter(limit);
    var stdout := new LimitedOutputWriter(limiter);
    var stderr := new LimitedOutputWriter(limiter);
    for k := 0 to |writes|
      invariant stdout.limiter == stderr.limiter == limiter && stdout != stderr
      invariant Output(stdout.buffer, stderr.buffer, limiter.remaining, limiter.truncatedFlag) ==
                After(limit, writes[..k])
    {
      assert writes[..k + 1][..k] == writes[..k];
      if writes[k].stream.Stdout? {
        var _ := stdout.Write(writes[k].data);
      } else {
        var _ := stderr.Write(writes[k].data);
      }
    }
    assert writes[..|writes|] == writes;
    output := Output(stdout.buffer, stderr.buffer, limiter.remaining, limiter.truncatedFlag);
  }
}
