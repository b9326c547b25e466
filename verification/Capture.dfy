/** Capturing a command's output, and what the executor makes of how the command ended. */
module Capture {
  import opened Domain

  type Byte = bv8

  const MAX_CAPTURED_OUTPUT_BYTES := 64 * 1024

  datatype Stop = More | EndOfStream | Broken(message: string)

  /** One answer of a reader: some bytes, and whether the stream goes on. */
  datatype Read = Read(data: seq<Byte>, stop: Stop)

  datatype Captured = Captured(text: seq<Byte>, truncated: bool, readError: Option<string>, hadOutput: bool)

  ghost predicate Ends(answers: seq<Read>) {
    exists i :: 0 <= i < |answers| && answers[i].stop != More
  }

  /** Everything the reader delivers, up to and including the answer it stops with. */
  ghost function Sent(answers: seq<Read>): seq<Byte> {
    if answers == [] then []
    else if answers[0].stop != More then answers[0].data
    else answers[0].data + Sent(answers[1..])
  }

  ghost function StopOf(answers: seq<Read>): Stop {
    if answers == [] then EndOfStream
    else if answers[0].stop != More then answers[0].stop
    else StopOf(answers[1..])
  }

  function First(s: seq<Byte>, n: nat): seq<Byte> {
    if |s| <= n then s else s[..n]
  }

  /** What a capture says about the bytes of a stream, however they were cut into reads. */
  ghost predicate Describes(c: Captured, sent: seq<Byte>) {
    && c.text == First(sent, 65_536)
    && (c.truncated <==> |sent| > 65_536)
    && (c.hadOutput <==> sent != [])
  }

  method ReadCapturedStream(answers: seq<Read>) returns (r: Captured)
    requires Ends(answers)
    ensures Describes(r, Sent(answers))
    ensures r.readError == if StopOf(answers).Broken? then Some(StopOf(answers).message) else None
  {
    hide Sent, StopOf, Ends, First;
    r := Captured([], false, None, false);
    StartsEmpty(answers);
    var buffer: seq<Byte> := [];
    ghost var seen: seq<Byte> := [];
    var i := 0;
    while true
      invariant i < |answers| && Ends(answers[i..])
      invariant Sent(answers) == seen + Sent(answers[i..]) && StopOf(answers) == StopOf(answers[i..])
      invariant buffer == First(seen, MAX_CAPTURED_OUTPUT_BYTES)
      invariant r.truncated <==> |seen| > MAX_CAPTURED_OUTPUT_BYTES
      invariant r.hadOutput <==> seen != []
      invariant r.readError == None
      decreases |answers| - i
    {
      var chunk, stop := answers[i].data, answers[i].stop;
      if |chunk| > 0 {
        r := r.(hadOutput := true);
        var remaining := MAX_CAPTURED_OUTPUT_BYTES - |buffer|;
        if remaining <= 0 {
          r := r.(truncated := true);
        } else if |chunk| > remaining {
          buffer := buffer + chunk[..remaining];
          r := r.(truncated := true);
        } else {
          buffer := buffer + chunk;
        }
      }
      Continue(answers, i);
      FirstGrows(seen, chunk, MAX_CAPTURED_OUTPUT_BYTES);
      seen := seen + chunk;
      if stop != More {
        if stop.Broken? { r := r.(readError := Some(stop.message)); }
        break;
      }
      i := i + 1;
    }
    r := r.(text := buffer);
  }

  lemma StartsEmpty(answers: seq<Read>)
    requires Ends(answers)
    ensures answers[0..] == answers && answers != [] && First([], MAX_CAPTURED_OUTPUT_BYTES) == []
  {
  }

  /** A buffer of the first n bytes takes the next chunk, or the part of it that fits. */
  lemma FirstGrows(seen: seq<Byte>, chunk: seq<Byte>, n: nat)
    ensures |First(seen, n)| <= n && (|First(seen, n)| == n <==> |seen| >= n)
    ensures First(seen + chunk, n) ==
      First(seen, n) + (if |chunk| > n - |First(seen, n)| then chunk[..n - |First(seen, n)|] else chunk)
    ensures |seen + chunk| > n <==> |seen| > n || |chunk| > n - |First(seen, n)|
  {
  }

  lemma Continue(answers: seq<Read>, i: nat)
    requires i < |answers|
    ensures answers[i].stop == More ==>
      Sent(answers[i..]) == answers[i].data + Sent(answers[i + 1..]) && StopOf(answers[i..]) == StopOf(answers[i + 1..])
    ensures answers[i].stop != More ==> Sent(answers[i..]) == answers[i].data && StopOf(answers[i..]) == answers[i].stop
    ensures answers[i].stop == More && Ends(answers[i..]) ==> i + 1 < |answers| && Ends(answers[i + 1..])
  {
    assert answers[i..][1..] == answers[i + 1..];
    if answers[i].stop == More && Ends(answers[i..]) {
      var k :| 0 <= k < |answers[i..]| && answers[i..][k].stop != More;
      assert answers[i + 1..][k - 1].stop != More;
    }
  }

  // ----- the stored output -----

  datatype Output = Output(stdout: seq<Byte>, stderr: seq<Byte>, stdoutTruncated: bool, stderrTruncated: bool,
    updatedAt: int)

  function BuildRunOutput(stdout: Captured, stderr: Captured, finishedAt: int): Option<Output> {
    if stdout.text == [] && stderr.text == [] && !stdout.truncated && !stderr.truncated then None
    else Some(Output(stdout.text, stderr.text, stdout.truncated, stderr.truncated, finishedAt))
  }

  /** A run stores no output exactly when both streams were empty. */
  lemma OutputAbsentIff(stdout: Captured, stderr: Captured, out: seq<Byte>, err: seq<Byte>, finishedAt: int)
    requires Describes(stdout, out) && Describes(stderr, err)
    ensures BuildRunOutput(stdout, stderr, finishedAt).None? <==> out == [] && err == []
  {
    assert out != [] ==> First(out, 65_536) != [];
    assert err != [] ==> First(err, 65_536) != [];
  }

  /** The stored texts keep the order of the bytes and lose only what lies beyond the limit. */
  lemma OutputKeepsPrefix(stdout: Captured, stderr: Captured, out: seq<Byte>, err: seq<Byte>, finishedAt: int)
    requires Describes(stdout, out) && Describes(stderr, err) && BuildRunOutput(stdout, stderr, finishedAt).Some?
    ensures var o := BuildRunOutput(stdout, stderr, finishedAt).value;
      && o.stdout <= out && o.stderr <= err && o.updatedAt == finishedAt
      && (o.stdoutTruncated <==> o.stdout != out) && (o.stderrTruncated <==> o.stderr != err)
  {
  }
}
