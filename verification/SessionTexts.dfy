// The texts of a session whose LLM deltas are valid UTF-8: whatever was not
// truncated is valid too (internal/session/session.go:1168-1207).
module SessionTexts {
  import opened Utf8
  import opened Conversations
  import opened Events
  import opened Grammar
  import opened Actor
  import opened ActorInvariants
  import opened PipeLog
  import opened PipeInvariants
  import opened Pipelines
  import opened Gateway

  // The LLM says nothing but valid text; an adapter that decodes JSON sees to it.
  predicate Clean(step: Step) {
    step.Stage? && step.action.LlmText? ==> Valid(step.action.delta)
  }

  ghost predicate FactsValid(es: seq<PipeEvent>) {
    forall i :: 0 <= i < |es| ==> Valid(TextOf(es[i]))
  }

  // What a client may truncate and has not is valid.
  ghost predicate ItemsValid(st: State) {
    forall ref :: ref in st.conv.index && Spoken(st.conv.index[ref]) && !WasTruncated(st.trace, ref) ==>
      Valid(st.conv.index[ref].view.text)
  }

  ghost predicate TextsValid(s: System) {
    ItemsValid(s.actor) && FactsValid(s.queue) && FactsValid(s.received)
  }

  lemma {:induction false} LogTextIsValid(log: seq<PipeEvent>)
    requires FactsValid(log)
    ensures Valid(TextIn(log))
  {
    if log != [] {
      LogTextIsValid(log[..|log| - 1]);
      ValidAppend(TextIn(log[..|log| - 1]), TextOf(log[|log| - 1]));
    }
  }

  // A handler other than the pipeline's.
  lemma KeptItemsValid(st: State, st': State)
    requires ItemsValid(st) && ItemsKept(st, st') && st.trace <= st'.trace
    ensures ItemsValid(st')
  {
    forall ref | ref in st'.conv.index && Spoken(st'.conv.index[ref]) && !WasTruncated(st'.trace, ref)
      ensures Valid(st'.conv.index[ref].view.text)
    {
      assert !WasTruncated(st.trace, ref);
    }
  }

  // A fact the running response takes in.
  lemma AbsorbedItemsValid(st: State, st': State, received: seq<PipeEvent>, ev: PipeEvent)
    requires ActorInv(st') && IsRunning(st) && Absorbed(st, st', ev) && ItemsValid(st)
    requires Progress(st', received) && FactsValid(received)
    ensures ItemsValid(st')
  {
    hide ParseAll;
    hide TimerInv;
    hide FactsValid;
    LogTextIsValid(received);
    forall ref | ref in st'.conv.index && Spoken(st'.conv.index[ref]) && !WasTruncated(st'.trace, ref)
      ensures Valid(st'.conv.index[ref].view.text)
    {
      if ref == st'.active.value.item {
        if ParseAll(st'.trace).run.truncated { TruncatedIsSeen(st'.trace); }
      } else {
        assert !WasTruncated(st.trace, ref);
      }
    }
  }

  lemma HandleTexts(s: System, isLetter: Rune -> bool, input: Input)
    requires SysInv(s) && TextsValid(s) && MayStep(s, Handle(input))
    ensures TextsValid(Take(s, isLetter, Handle(input)))
  {
    hide SysInv;
    hide ActorInv;
    hide ItemsKept;
    hide ItemsValid;
    hide Talks;
    hide Handled;
    ActorHolds(s);
    HandledIsGood(s.actor, input);
    KeptItemsValid(s.actor, Handled(s.actor, input));
    NoFacts();
  }

  lemma NoFacts()
    ensures FactsValid([])
  {
  }

  lemma DeliverTexts(s: System, isLetter: Rune -> bool)
    requires SysInv(s) && TextsValid(s) && MayStep(s, Deliver)
    ensures TextsValid(Take(s, isLetter, Deliver))
  {
    hide SysInv;
    hide ActorInv;
    hide OnPipeEvent;
    hide Absorbed;
    hide ItemsValid;
    hide ItemsKept;
    hide Talks;
    hide Progress;
    hide Addressed;
    var ev := s.queue[0];
    var st' := OnPipeEvent(s.actor, ev);
    FreshIsAddressed(s);
    ActorHolds(s);
    OnPipeEventKeeps(s.actor, ev);
    NoFacts();
    if !Fresh(s.actor, ev) {
    } else if Absorbed(s.actor, st', ev) {
      AbsorbedRun(s, st');
      AbsorbedItemsValid(s.actor, st', s.received + [ev], ev);
    } else {
      KeptItemsValid(s.actor, st');
    }
  }

  lemma StageTexts(s: System, isLetter: Rune -> bool, i: nat, a: Action)
    requires TextsValid(s) && MayStep(s, Stage(i, a)) && Clean(Stage(i, a))
    ensures TextsValid(Take(s, isLetter, Stage(i, a)))
  {
    hide ItemsValid;
    hide Act;
    SentIsValid(s.pipes[i], a);
  }

  lemma SentIsValid(p: Pipe, a: Action)
    requires Enabled(p, a) && (a.LlmText? ==> Valid(a.delta))
    ensures FactsValid(Sent(p, a))
  {
  }

  lemma StepTexts(s: System, isLetter: Rune -> bool, step: Step)
    requires SysInv(s) && TextsValid(s) && MayStep(s, step) && Clean(step)
    ensures TextsValid(Take(s, isLetter, step))
  {
    hide SysInv;
    hide TextsValid;
    match step
    case Handle(input) => HandleTexts(s, isLetter, input);
    case Deliver => DeliverTexts(s, isLetter);
    case Stage(i, a) => StageTexts(s, isLetter, i, a);
    case CloseOutside => ClosedTexts(s);
  }

  lemma ClosedTexts(s: System)
    requires TextsValid(s)
    ensures TextsValid(s.(closed := true))
  {
  }

  ghost predicate AllClean(steps: seq<Step>) {
    forall i :: 0 <= i < |steps| ==> Clean(steps[i])
  }

  lemma {:induction false} RunTexts(s: System, isLetter: Rune -> bool, steps: seq<Step>)
    requires SysInv(s) && TextsValid(s) && MayRun(s, isLetter, steps) && AllClean(steps)
    ensures TextsValid(Run(s, isLetter, steps))
    decreases |steps|
  {
    hide SysInv;
    hide TextsValid;
    hide Take;
    hide MayStep;
    hide Clean;
    if steps != [] {
      StepTexts(s, isLetter, steps[0]);
      Gateway.StepKeeps(s, isLetter, steps[0]);
      RunTexts(Take(s, isLetter, steps[0]), isLetter, steps[1..]);
    }
  }

  lemma NewTexts(cfg: Config, bufferMaxMs: nat)
    ensures TextsValid(NewSystem(cfg, bufferMaxMs))
  {
  }

  // After any run in which the LLM's deltas are valid, so is the text of every
  // item a client may truncate and has not.
  lemma TextsStayValid(cfg: Config, bufferMaxMs: nat, isLetter: Rune -> bool, steps: seq<Step>, ref: ItemRef)
    requires MayRun(NewSystem(cfg, bufferMaxMs), isLetter, steps) && AllClean(steps)
    ensures var st := Run(NewSystem(cfg, bufferMaxMs), isLetter, steps).actor;
            ref in st.conv.index && Spoken(st.conv.index[ref]) && !WasTruncated(st.trace, ref) ==>
              Valid(st.conv.index[ref].view.text)
  {
    hide SysInv;
    NewSystemInv(cfg, bufferMaxMs);
    NewTexts(cfg, bufferMaxMs);
    RunTexts(NewSystem(cfg, bufferMaxMs), isLetter, steps);
  }
}
