// The input audio buffer as the object the session updates in place
// (internal/session/buffer.go).
module InputAudio {
  import opened Audio
  import InputBuffer

  class InputAudioBuffer {
    var pcm: Bytes
    var baseMs: int
    var headMs: int
    var maxBytes: int
    var segStartMs: int
    var segEndMs: int

    function State(): InputBuffer.Buffer
      reads this
    {
      InputBuffer.Buffer(pcm, baseMs, headMs, maxBytes, segStartMs, segEndMs)
    }

    constructor (maxMs: int)
      ensures State() == InputBuffer.NewBuffer(maxMs)
    {
      pcm, baseMs, headMs, maxBytes, segStartMs, segEndMs := [], 0, 0, MsToBytes(maxMs), -1, -1;
    }

    // Exceeding the cap is refused and nothing is dropped.
    method Append(more: Bytes) returns (ok: bool)
      modifies this`pcm
      ensures ok == !InputBuffer.Overflows(old(State()), more)
      ensures State() == InputBuffer.Append(old(State()), more)
    {
      if |pcm| + |more| > maxBytes { return false; }
      pcm := pcm + more;
      ok := true;
    }

    method MarkSpeechStart(offsetMs: int, prefixMs: int) returns (start: int)
      modifies this`segStartMs, this`segEndMs
      ensures State() == InputBuffer.MarkSpeechStart(old(State()), offsetMs, prefixMs)
      ensures start == InputBuffer.SpeechStartMs(old(State()), offsetMs, prefixMs)
    {
      start := baseMs + offsetMs - prefixMs;
      if start < headMs { start := headMs; }
      segStartMs := start;
      segEndMs := -1;
    }

    method MarkSpeechEnd(offsetMs: int, silenceMs: int) returns (end: int)
      modifies this`segEndMs
      ensures State() == InputBuffer.MarkSpeechEnd(old(State()), offsetMs, silenceMs)
      ensures end == InputBuffer.SpeechEndMs(old(State()), offsetMs, silenceMs)
    {
      end := baseMs + offsetMs + silenceMs;
      var total := headMs + BytesToMs(|pcm|);
      if end > total { end := total; }
      segEndMs := end;
    }

    method Clear()
      modifies this
      ensures State() == InputBuffer.Clear(old(State()))
    {
      baseMs := headMs + BytesToMs(|pcm|);
      headMs := baseMs;
      pcm := [];
      segStartMs, segEndMs := -1, -1;
    }

    // Under the buffer's invariant the slice is in bounds and the committed audio
    // exact; out of range, Go panics and nothing is cleared.
    method Commit() returns (c: InputBuffer.Commit)
      modifies this
      ensures c == InputBuffer.CommitResult(old(State())) && State() == InputBuffer.AfterCommit(old(State()))
      ensures InputBuffer.BufferInv(old(State())) ==> InputBuffer.BufferInv(State()) && !c.OutOfRange?
      ensures c.Committed? && InputBuffer.BufferInv(old(State())) ==> |c.pcm| == BYTES_PER_MS * (c.endMs - c.startMs)
    {
      if InputBuffer.BufferInv(State()) { InputBuffer.CommitIsExact(State()); }
      if |pcm| == 0 { return InputBuffer.Empty; }
      var startMs, endMs := headMs, headMs + BytesToMs(|pcm|);
      if segStartMs >= 0 { startMs := segStartMs; }
      if segEndMs >= 0 && segEndMs > startMs { endMs := segEndMs; }
      var from := MsToBytes(startMs - headMs);
      var upTo := MsToBytes(endMs - headMs);
      if upTo > |pcm| { upTo := |pcm|; }
      if from < 0 || from > upTo { return InputBuffer.OutOfRange; }
      c := InputBuffer.Committed(pcm[from..upTo], startMs, endMs);
      Clear();
    }

    method TrimIdle(keepMs: nat)
      modifies this`pcm, this`headMs
      ensures State() == InputBuffer.TrimIdle(old(State()), keepMs)
    {
      if segStartMs >= 0 { return; }
      var drop := BytesToMs(|pcm|) - keepMs;
      if drop <= 0 { return; }
      assert 48 * drop <= |pcm|;
      pcm := pcm[MsToBytes(drop)..];
      headMs := headMs + drop;
    }
  }
}
