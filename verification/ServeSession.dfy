// The session object run over any schedule of inputs, deliveries and stage steps:
// what is proved about every reachable system is true of the object
// (internal/session/session.go:301-346).
module ServeSession {
  import opened Utf8
  import opened Grammar
  import opened Actor
  import opened Pipelines
  import opened Gateway
  import opened Sessions
  import opened SessionRuns

  // One choice of the actor's select, or one step of everything around it.
  method ServeOne(session: Session, s: System, isLetter: Rune -> bool, step: Step)
    requires SysInv(s) && MayStep(s, step) && session.State() == s.actor
    modifies session
    ensures session.State() == Take(s, isLetter, step).actor
    ensures SysInv(Take(s, isLetter, step))
  {
    hide SysInv;
    hide Act;
    hide OnCommand;
    hide OnAudio;
    hide OnAsr;
    hide OnTranscriptTimeout;
    hide OnEndOfTurnTimer;
    hide OnDeferredTimeout;
    hide OnPipeEvent;
    StepKeeps(s, isLetter, step);
    ActorHolds(s);
    match step {
      case Handle(input) =>
        match input {
          case GotCommand(cmd, io) => session.HandleCommand(cmd, io);
          case GotAudio(pcm, io) => session.HandleAudio(pcm, io);
          case GotAsr(ev, io) => session.HandleAsr(ev, io);
          case TranscriptTimer => session.TranscriptTimeout();
          case EndOfTurnTimer(io) => session.EndOfTurnTimer(io);
          case DeferTimer => session.DeferredTimeout();
        }
      case Deliver => session.HandleResponseEvent(s.queue[0]);
      case Stage(i, a) =>
      case CloseOutside =>
    }
  }

  // Any schedule, from a new session to its end.
  method Serve(session: Session, cfg: Config, bufferMaxMs: nat, isLetter: Rune -> bool, steps: seq<Step>)
    requires session.State() == NewSession(cfg, bufferMaxMs)
    requires MayRun(NewSystem(cfg, bufferMaxMs), isLetter, steps)
    modifies session
    ensures var last := Run(NewSystem(cfg, bufferMaxMs), isLetter, steps);
            Reachable(last, isLetter) && session.State() == Cleanup(last.actor)
    ensures ParseAll(session.trace) == Idle(session.nextResp)
    ensures session.active.None? && !session.asrWait && session.eot.None? && !session.deferWait
  {
    hide SysInv;
    hide Take;
    hide MayStep;
    hide ParseAll;
    var s := NewSystem(cfg, bufferMaxMs);
    ghost var first := s;
    NewSystemInv(cfg, bufferMaxMs);
    for i := 0 to |steps|
      invariant SysInv(s) && session.State() == s.actor
      invariant MayRun(s, isLetter, steps[i..]) && Run(s, isLetter, steps[i..]) == Run(first, isLetter, steps)
    {
      assert steps[i..][1..] == steps[i + 1..];
      ServeOne(session, s, isLetter, steps[i]);
      s := Take(s, isLetter, steps[i]);
    }
    ActorHolds(s);
    session.Cleanup();
  }
}
