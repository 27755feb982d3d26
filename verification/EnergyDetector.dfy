// The voice-activity detector as the object the session drives
// (internal/vad/vad.go:60-150).
module EnergyDetector {
  import opened Audio
  import Vad

  class Energy {
    var enterPower: real
    var exitPower: real
    var silenceMs: int
    var pending: Bytes
    var elapsedMs: nat
    var speaking: bool
    var lastVoiced: nat

    function State(): Vad.Detector
      reads this
    {
      Vad.Detector(enterPower, exitPower, silenceMs, pending, elapsedMs, speaking, lastVoiced)
    }

    constructor (threshold: real, silenceMs: int)
      ensures State() == Vad.NewDetector(threshold, silenceMs)
    {
      var enter := threshold * 0.1;
      enterPower, exitPower := Power(enter), Power(enter * 0.6);
      this.silenceMs := silenceMs;
      pending, elapsedMs, speaking, lastVoiced := [], 0, false, 0;
    }

    method Reset()
      modifies this
      ensures State() == Vad.Reset(old(State()))
    {
      pending, elapsedMs, speaking, lastVoiced := [], 0, false, 0;
    }

    // The loop body: one frame taken off pending.
    method NextFrame() returns (events: seq<Vad.VadEvent>)
      requires |pending| >= FRAME_BYTES
      modifies this
      ensures (State(), events) == Vad.NextFrame(old(State()))
    {
      var frame := pending[..FRAME_BYTES];
      pending := pending[FRAME_BYTES..];
      var frameStart := elapsedMs;
      elapsedMs := elapsedMs + FRAME_MS;
      var level := SumOfSquares(frame);
      events := [];
      if !speaking && level as real >= 480.0 * enterPower {
        speaking := true;
        lastVoiced := elapsedMs;
        events := [Vad.SpeechStart(frameStart)];
      } else if speaking && level as real >= 480.0 * exitPower {
        lastVoiced := elapsedMs;
      } else if speaking && elapsedMs - lastVoiced >= silenceMs {
        speaking := false;
        events := [Vad.SpeechEnd(lastVoiced)];
      }
    }

    method Process(pcm: Bytes) returns (events: seq<Vad.VadEvent>)
      modifies this
      ensures (State(), events) == Vad.Process(old(State()), pcm)
    {
      hide Vad.NextFrame;
      pending := pending + pcm;
      events := [];
      ghost var start := State();
      assert [] + Vad.Drain(start).1 == Vad.Drain(start).1;
      while |pending| >= FRAME_BYTES
        invariant Vad.Drain(start) == (Vad.Drain(State()).0, events + Vad.Drain(State()).1)
        decreases |pending|
      {
        ghost var d := State();
        ghost var was := events;
        Vad.FrameShortens(d);
        var more := NextFrame();
        events := events + more;
        assert was + (more + Vad.Drain(State()).1) == events + Vad.Drain(State()).1;
      }
      assert Vad.Drain(State()) == (State(), []) && events + [] == events;
    }
  }
}
