// From the providers to the client: what a response that completes has emitted is what
// its LLM and its TTS gave, over whole runs of a session
// (internal/session/pipeline.go:62-259, internal/session/session.go:1162-1334).
module EndToEnd {
  import opened Utf8
  import opened Events
  import opened Grammar
  import opened Actor
  import opened PipeLog
  import opened PipeInvariants
  import opened Pipelines
  import opened Gateway
  import opened SessionRuns
  import opened Outcomes
  import opened ProviderRuns
  import Sentences

  // What the stages of pipeline i do in a run.
  function StagesOf(steps: seq<Step>, i: nat): seq<Action> {
    if steps == [] then []
    else (if steps[0].Stage? && steps[0].i == i then [steps[0].action] else []) + StagesOf(steps[1..], i)
  }

  // p' is where p gets by these actions.
  ghost predicate GetsTo(isLetter: Rune -> bool, p: Pipe, actions: seq<Action>, p': Pipe) {
    Sentences.WellFormed(p.splitter) && MayAct(isLetter, p, actions) && ActAll(isLetter, p, actions) == p'
  }

  lemma GetsOn(isLetter: Rune -> bool, p: Pipe, a: Action, actions: seq<Action>, p': Pipe)
    requires Sentences.WellFormed(p.splitter) && Enabled(p, a)
    requires GetsTo(isLetter, Act(isLetter, p, a), actions, p')
    ensures GetsTo(isLetter, p, [a] + actions, p')
  {
    hide Act;
    hide Enabled;
    StaysWellFormed(isLetter, p, a);
    assert ([a] + actions)[1..] == actions;
  }

  lemma GetsNowhere(isLetter: Rune -> bool, p: Pipe)
    requires Sentences.WellFormed(p.splitter)
    ensures GetsTo(isLetter, p, [], p)
  {
  }

  lemma {:induction false} SenderStays(isLetter: Rune -> bool, p: Pipe, actions: seq<Action>, p': Pipe)
    requires GetsTo(isLetter, p, actions, p')
    ensures p'.sender == p.sender
    decreases |actions|
  {
    hide Enabled;
    if actions != [] {
      StaysWellFormed(isLetter, p, actions[0]);
      SameSender(isLetter, p, actions[0]);
      SenderStays(isLetter, Act(isLetter, p, actions[0]), actions[1..], p');
    }
  }

  lemma SameSender(isLetter: Rune -> bool, p: Pipe, a: Action)
    requires Sentences.WellFormed(p.splitter) && Enabled(p, a)
    ensures Act(isLetter, p, a).sender == p.sender
  {
    hide Sent;
  }

  // One step of the system, as pipeline i sees it.
  lemma StepOfPipe(s: System, isLetter: Rune -> bool, step: Step, i: nat)
    requires MayStep(s, step)
    ensures var s' := Take(s, isLetter, step);
            && |s.pipes| <= |s'.pipes|
            && (i < |s.pipes| ==>
                  s'.pipes[i] == (if step.Stage? && step.i == i then Act(isLetter, s.pipes[i], step.action)
                                  else s.pipes[i]))
            && (|s.pipes| <= i < |s'.pipes| ==> s'.pipes[i] == NewPipe(s'.pipes[i].sender))
            && (step.Stage? ==> step.i < |s.pipes| && Sentences.WellFormed(s.pipes[step.i].splitter)
                                && Enabled(s.pipes[step.i], step.action))
  {
    hide Handled;
    hide OnPipeEvent;
    hide Act;
    hide Sent;
    hide Enabled;
    hide Ready;
  }

  // Every pipeline gets where its own stages' steps take it.
  lemma {:induction false} RunOfPipe(s: System, isLetter: Rune -> bool, steps: seq<Step>, i: nat)
    requires SysInv(s) && MayRun(s, isLetter, steps)
    ensures var s' := Run(s, isLetter, steps);
            && |s.pipes| <= |s'.pipes|
            && (i < |s.pipes| ==> GetsTo(isLetter, s.pipes[i], StagesOf(steps, i), s'.pipes[i]))
            && (|s.pipes| <= i < |s'.pipes| ==>
                  GetsTo(isLetter, NewPipe(s'.pipes[i].sender), StagesOf(steps, i), s'.pipes[i]))
    decreases |steps|
  {
    hide SysInv;
    hide Take;
    hide MayStep;
    hide GetsTo;
    hide NewPipe;
    if steps == [] {
      if i < |s.pipes| { PipesAreWellFormed(s, i); GetsNowhere(isLetter, s.pipes[i]); }
    } else {
      var step, rest := steps[0], steps[1..];
      var s1 := Take(s, isLetter, step);
      var s' := Run(s, isLetter, steps);
      StepOfPipe(s, isLetter, step, i);
      Gateway.StepKeeps(s, isLetter, step);
      RunOfPipe(s1, isLetter, rest, i);
      if step.Stage? && step.i == i {
        GetsOn(isLetter, s.pipes[i], step.action, StagesOf(rest, i), s'.pipes[i]);
      } else {
        assert StagesOf(steps, i) == StagesOf(rest, i);
        if |s.pipes| <= i < |s1.pipes| { NewSender(isLetter, s1.pipes[i], StagesOf(rest, i), s'.pipes[i]); }
      }
    }
  }

  lemma NewSender(isLetter: Rune -> bool, p: Pipe, actions: seq<Action>, p': Pipe)
    requires p == NewPipe(p.sender) && GetsTo(isLetter, p, actions, p')
    ensures GetsTo(isLetter, NewPipe(p'.sender), actions, p')
  {
    hide GetsTo;
    SenderStays(isLetter, p, actions, p');
  }

  // What pipeline i has sent the actor is what its providers gave.
  lemma LogOfPipe(isLetter: Rune -> bool, sender: Sender, actions: seq<Action>, p: Pipe)
    requires GetsTo(isLetter, NewPipe(sender), actions, p)
    ensures var given := AllGiven(actions);
            && TextIn(p.log) == given.text && AudioIn(p.log) == |given.pcm| && TimingsIn(p.log) == given.timings
            && FinishIn(p.log) == (if given.finish == [] then None else Some(given.finish[|given.finish| - 1]))
  {
    hide MayAct;
    hide ActAll;
    hide AllGiven;
    hide AllSaid;
    hide Plus;
    NothingIsChanged(isLetter, NewPipe(sender), actions);
    SilenceSaysNothing();
    PlusNothing(AllGiven(actions));
    SaidIsLogged(p.log);
  }

  lemma SilenceSaysNothing()
    ensures AllSaid([]) == NOTHING
  {
  }

  // After any run of a new session, when a response completes: the text the client has
  // been sent is all the text its LLM gave and the audio all the whole samples its TTS
  // gave, the alignment on record is all there was, and the status it is reported with
  // says how the LLM finished.
  lemma ClientHearsProviders(cfg: Config, bufferMaxMs: nat, isLetter: Rune -> bool, steps: seq<Step>)
    requires MayRun(NewSystem(cfg, bufferMaxMs), isLetter, steps)
    requires Completes(Run(NewSystem(cfg, bufferMaxMs), isLetter, steps))
    ensures var s := Run(NewSystem(cfg, bufferMaxMs), isLetter, steps);
            && s.pipes != [] && ParseAll(s.actor.trace).Open? && s.actor.active.Some?
            && var o := ParseAll(s.actor.trace).run;
               var st' := OnPipeEvent(s.actor, s.queue[0]);
               var given := AllGiven(StagesOf(steps, |s.pipes| - 1));
               && o.text == given.text && o.bytes == |given.pcm| && Timings(s.actor) == given.timings
               && given.finish != []
               && match given.finish[|given.finish| - 1]
                  case FinishStop => DoneTold(s.actor, st', ResponseCompleted, NoReason)
                  case FinishLength => DoneTold(s.actor, st', ResponseIncomplete, MaxOutputTokens)
                  case FinishContentFilter => DoneTold(s.actor, st', ResponseIncomplete, ContentFilter)
  {
    hide SysInv;
    hide MayRun;
    hide Run;
    hide ParseAll;
    hide OnPipeEvent;
    hide DoneTold;
    hide AllGiven;
    hide TextIn;
    hide GetsTo;
    var s := Run(NewSystem(cfg, bufferMaxMs), isLetter, steps);
    NewSystemInv(cfg, bufferMaxMs);
    assert Reachable(s, isLetter);
    CompletionLosesNothing(s, isLetter);
    CompletionReportsFinish(s, isLetter);
    RunOfPipe(NewSystem(cfg, bufferMaxMs), isLetter, steps, |s.pipes| - 1);
    LogOfPipe(isLetter, LastPipe(s).sender, StagesOf(steps, |s.pipes| - 1), LastPipe(s));
  }
}
