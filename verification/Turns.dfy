// The turn-taking state machine (internal/session/turn.go).
module Turns {
  import opened Utf8
  import opened Sentences

  datatype TurnMode = Manual | ServerVad | SemanticVad

  datatype TurnDetection = TurnDetection(
    mode: TurnMode,
    createResponse: bool,
    interruptResponse: bool,
    threshold: real,
    prefixMs: nat,
    silenceMs: nat)

  datatype TurnInput =
    | VadSpeechStart
    | VadSpeechEnd
    | AsrFinal(text: Text)
    | AsrEndOfTurn
    | ClientCommit
    | ClientCreateResponse
    | ResponseStarted
    | ResponseEnded

  datatype Decision = Decision(
    emitSpeechStarted: bool,
    emitSpeechStopped: bool,
    interrupt: bool,
    commit: bool,
    trigger: bool,
    deferTrigger: bool,
    armEndOfTurn: bool,
    armFinalWait: bool)

  const NOTHING: Decision := Decision(false, false, false, false, false, false, false, false)

  // finalTerminal is meaningful only while finalPending.
  datatype Turn = Turn(
    mode: TurnMode,
    createResponse: bool,
    interruptResponse: bool,
    responseActive: bool,
    speaking: bool,
    pendingEot: bool,
    finalPending: bool,
    finalTerminal: bool)

  function NewTurn(td: TurnDetection): Turn {
    if td.mode.Manual? then Turn(Manual, false, false, false, false, false, false, false)
    else Turn(td.mode, td.createResponse, td.interruptResponse, false, false, false, false, false)
  }

  function ResetTurn(t: Turn): Turn {
    t.(speaking := false, pendingEot := false, finalPending := false)
  }

  function EndTurn(t: Turn, d: Decision): (Turn, Decision) {
    if t.mode.SemanticVad? then (ResetTurn(t), d.(commit := true, deferTrigger := t.createResponse))
    else (ResetTurn(t), d.(commit := true, trigger := t.createResponse))
  }

  function Judge(t: Turn, terminal: bool, d: Decision): (Turn, Decision) {
    if terminal then EndTurn(t, d) else (t, d.(armEndOfTurn := true))
  }

  // strings.TrimRightFunc(text, space or closing quote).
  function TrimRight(text: Text): (r: Text)
    ensures r <= text
    decreases |text|
  {
    if text == [] then [] else
      var d := DecodeLastRune(text);
      if IsSpace(d.rune) || IsClosingQuote(d.rune) then TrimRight(text[..|text| - d.size]) else text
  }

  // Whether text ends with sentence punctuation, closing quotes and spaces
  // after it aside.
  predicate EndsSentence(text: Text) {
    var rs := Runes(TrimRight(text));
    rs != [] && IsTerminator(rs[|rs| - 1])
  }

  function Step(t: Turn, input: TurnInput): (Turn, Decision) {
    match input
    case ResponseStarted => (t.(responseActive := true), NOTHING)
    case ResponseEnded => (t.(responseActive := false), NOTHING)
    case ClientCommit => (ResetTurn(t), NOTHING.(commit := true))
    case ClientCreateResponse => (t, NOTHING.(trigger := true))
    case VadSpeechStart =>
      if t.mode.Manual? then (t, NOTHING)
      else (t.(speaking := true, pendingEot := false, finalPending := false),
            NOTHING.(emitSpeechStarted := true, interrupt := t.interruptResponse && t.responseActive))
    case VadSpeechEnd =>
      if t.mode.Manual? || !t.speaking then (t, NOTHING)
      else
        var t1 := t.(speaking := false);
        var d := NOTHING.(emitSpeechStopped := true);
        if t.mode.ServerVad? then EndTurn(t1, d)
        else if t.finalPending then Judge(t1.(pendingEot := true, finalPending := false), t.finalTerminal, d)
        else (t1.(pendingEot := true), d.(armFinalWait := true))
    case AsrFinal(text) =>
      if !t.mode.SemanticVad? then (t, NOTHING)
      else if t.pendingEot then Judge(t, EndsSentence(text), NOTHING)
      else if t.speaking then (t.(finalPending := true, finalTerminal := EndsSentence(text)), NOTHING)
      else (t, NOTHING)
    case AsrEndOfTurn =>
      if t.mode.SemanticVad? && t.pendingEot then EndTurn(t, NOTHING) else (t, NOTHING)
  }

  predicate TurnInv(t: Turn) {
    && (t.mode.Manual? ==> !t.speaking)
    && (t.pendingEot ==> t.mode.SemanticVad? && !t.speaking)
    && (t.finalPending ==> t.mode.SemanticVad? && t.speaking)
  }

  lemma StepKeeps(t: Turn, input: TurnInput)
    requires TurnInv(t)
    ensures TurnInv(Step(t, input).0)
  {
  }

  // What the decision fields promise each other, for every state and input: a
  // turn that ends leaves nothing pending, a turn left pending has a timer
  // armed, and at most one kind of trigger and of timer is ever asked for.
  lemma DecisionsAreCoherent(t: Turn, input: TurnInput)
    requires TurnInv(t)
    ensures var (t', d) := Step(t, input);
            && (d.commit ==> !t'.speaking && !t'.pendingEot && !t'.finalPending)
            && (t'.pendingEot && !t.pendingEot ==> d.armEndOfTurn || d.armFinalWait)
            && (d.armEndOfTurn || d.armFinalWait ==> t'.pendingEot && !d.commit)
            && !(d.trigger && d.deferTrigger) && !(d.armEndOfTurn && d.armFinalWait)
            && (d.deferTrigger ==> d.commit)
            && (d.interrupt ==> t.responseActive)
            && (t'.speaking ==> t.speaking || input.VadSpeechStart?)
            && (d.emitSpeechStarted ==> input.VadSpeechStart? && t'.speaking)
            && (d.emitSpeechStopped ==> input.VadSpeechEnd? && t.speaking && !t'.speaking)
            && t'.responseActive == (if input.ResponseStarted? then true
                                     else if input.ResponseEnded? then false else t.responseActive)
  {
  }

  // ---- whole turns ------------------------------------------------------------------

  predicate EndsTurn(t: Turn, input: TurnInput) {
    Step(t, input).1.commit && !input.ClientCommit?
  }

  ghost function TurnsEnded(t: Turn, inputs: seq<TurnInput>): nat
    decreases |inputs|
  {
    if inputs == [] then 0
    else (if EndsTurn(t, inputs[0]) then 1 else 0) + TurnsEnded(Step(t, inputs[0]).0, inputs[1..])
  }

  ghost function SpeechStarts(inputs: seq<TurnInput>): nat {
    if inputs == [] then 0 else (if inputs[0].VadSpeechStart? then 1 else 0) + SpeechStarts(inputs[1..])
  }

  // One input: a turn that ends was open, and only a speech start opens one.
  lemma OneTurnAtMost(t: Turn, input: TurnInput)
    requires TurnInv(t)
    ensures var t' := Step(t, input).0;
            (if EndsTurn(t, input) then 1 else 0) + (if t'.speaking || t'.pendingEot then 1 else 0)
            <= (if input.VadSpeechStart? then 1 else 0) + (if t.speaking || t.pendingEot then 1 else 0)
  {
    hide EndsSentence;
  }

  // Over any run, no more turns end than speech segments started: every turn
  // the machine ends on its own answers a speech start of its own.
  lemma {:induction false} TurnsAnswerSpeech(t: Turn, inputs: seq<TurnInput>)
    requires TurnInv(t)
    ensures TurnsEnded(t, inputs) <= SpeechStarts(inputs) + (if t.speaking || t.pendingEot then 1 else 0)
    decreases |inputs|
  {
    hide Step;
    hide EndsTurn;
    hide TurnInv;
    if inputs != [] {
      StepKeeps(t, inputs[0]);
      OneTurnAtMost(t, inputs[0]);
      TurnsAnswerSpeech(Step(t, inputs[0]).0, inputs[1..]);
    }
  }

  // ---- what a turn's end asks for ------------------------------------------------------

  // The turn ends with input: in server_vad when the speech does; in semantic_vad
  // when speech is over and the last final heard ends a sentence, or the end of the
  // turn is told.
  predicate EndsNow(t: Turn, input: TurnInput) {
    match input
    case VadSpeechEnd => t.speaking && (t.mode.ServerVad? || (t.mode.SemanticVad? && t.finalPending && t.finalTerminal))
    case AsrFinal(text) => t.mode.SemanticVad? && t.pendingEot && EndsSentence(text)
    case AsrEndOfTurn => t.mode.SemanticVad? && t.pendingEot
    case _ => false
  }

  // A commit is the client's or the turn's end; the end asks for a response, at once
  // in server_vad and once the transcript is in in semantic_vad, exactly when the
  // turn is to be answered; and a speech start interrupts a response exactly when it
  // may and there is one.
  lemma TurnEndsAnswer(t: Turn, input: TurnInput)
    requires TurnInv(t)
    ensures var d := Step(t, input).1;
            && (d.commit <==> EndsNow(t, input) || input.ClientCommit?)
            && (d.trigger <==> (EndsNow(t, input) && t.mode.ServerVad? && t.createResponse)
                               || input.ClientCreateResponse?)
            && (d.deferTrigger <==> EndsNow(t, input) && t.mode.SemanticVad? && t.createResponse)
            && (d.interrupt <==> input.VadSpeechStart? && !t.mode.Manual? && t.interruptResponse && t.responseActive)
            && (d.emitSpeechStarted <==> input.VadSpeechStart? && !t.mode.Manual?)
            && (d.emitSpeechStopped <==> input.VadSpeechEnd? && t.speaking)
  {
    hide EndsSentence;
  }

  // A semantic_vad turn that is over but for its words is waited for: with one timer
  // when nothing was heard, with the other when what was heard goes on.
  lemma TurnsWait(t: Turn, input: TurnInput)
    requires TurnInv(t)
    ensures var d := Step(t, input).1;
            && (d.armFinalWait <==> input.VadSpeechEnd? && t.mode.SemanticVad? && t.speaking && !t.finalPending)
            && (d.armEndOfTurn <==>
                  t.mode.SemanticVad?
                  && ((input.VadSpeechEnd? && t.speaking && t.finalPending && !t.finalTerminal)
                      || (input.AsrFinal? && t.pendingEot && !EndsSentence(input.text))))
  {
    hide EndsSentence;
  }

  // The state after a run of inputs.
  ghost function After(t: Turn, inputs: seq<TurnInput>): Turn
    decreases |inputs|
  {
    if inputs == [] then t else After(Step(t, inputs[0]).0, inputs[1..])
  }

  function Finals(texts: seq<Text>): seq<TurnInput> {
    seq(|texts|, i requires 0 <= i < |texts| => AsrFinal(texts[i]))
  }

  // Finals heard during speech: only the last one counts.
  lemma {:induction false} HeardDuring(t: Turn, texts: seq<Text>)
    requires t.mode.SemanticVad? && t.speaking && !t.pendingEot
    ensures TurnsEnded(t, Finals(texts)) == 0
    ensures var t' := After(t, Finals(texts));
            t' == if texts == [] then t
                  else t.(finalPending := true, finalTerminal := EndsSentence(texts[|texts| - 1]))
    decreases |texts|
  {
    hide EndsSentence;
    if texts != [] {
      assert Finals(texts)[1..] == Finals(texts[1..]);
      HeardDuring(Step(t, AsrFinal(texts[0])).0, texts[1..]);
    }
  }

  // Finals heard once the speech is over: the first that ends a sentence ends it.
  lemma {:induction false} HeardAfter(t: Turn, texts: seq<Text>)
    requires t.mode.SemanticVad? && !t.speaking
    ensures TurnsEnded(t, Finals(texts))
            == if t.pendingEot && exists i :: 0 <= i < |texts| && EndsSentence(texts[i]) then 1 else 0
    decreases |texts|
  {
    hide EndsSentence;
    if texts != [] {
      assert Finals(texts)[1..] == Finals(texts[1..]);
      var t1 := Step(t, AsrFinal(texts[0])).0;
      HeardAfter(t1, texts[1..]);
      assert forall i :: 1 <= i < |texts| ==> texts[i] == texts[1..][i - 1];
      if EndsSentence(texts[0]) {
        assert t.pendingEot ==> exists i :: 0 <= i < |texts| && EndsSentence(texts[i]);
      } else if exists i :: 0 <= i < |texts| && EndsSentence(texts[i]) {
        var i :| 0 <= i < |texts| && EndsSentence(texts[i]);
        assert EndsSentence(texts[1..][i - 1]);
      }
    }
  }

  lemma {:induction false} EndedAppend(t: Turn, a: seq<TurnInput>, b: seq<TurnInput>)
    ensures TurnsEnded(t, a + b) == TurnsEnded(t, a) + TurnsEnded(After(t, a), b)
    ensures After(t, a + b) == After(After(t, a), b)
    decreases |a|
  {
    hide Step;
    hide EndsTurn;
    if a == [] {
      assert a + b == b;
    } else {
      assert (a + b)[1..] == a[1..] + b;
      EndedAppend(Step(t, a[0]).0, a[1..], b);
    }
  }

  // One whole spoken turn in semantic_vad: it ends, and ends once, if and only if the
  // last thing heard during the speech, or something heard after it, ends a sentence.
  lemma SemanticTurnEnds(t: Turn, during: seq<Text>, after: seq<Text>)
    requires t.mode.SemanticVad?
    ensures TurnsEnded(t, [VadSpeechStart] + Finals(during) + [VadSpeechEnd] + Finals(after))
            == if (during != [] && EndsSentence(during[|during| - 1]))
                  || (exists i :: 0 <= i < |after| && EndsSentence(after[i])) then 1 else 0
  {
    hide EndsSentence;
    hide TurnsEnded;
    hide After;
    hide EndsTurn;
    hide Step;
    var start, end := [VadSpeechStart], [VadSpeechEnd];
    var t1 := Step(t, VadSpeechStart).0;
    var t2 := After(t1, Finals(during));
    OneInput(t, VadSpeechStart);
    SpeechOpens(t);
    HeardDuring(t1, during);
    OneInput(t2, VadSpeechEnd);
    SpeechCloses(t2);
    HeardAfter(Step(t2, VadSpeechEnd).0, after);
    EndedAppend(t, start, Finals(during));
    EndedAppend(t, start + Finals(during), end);
    EndedAppend(t, start + Finals(during) + end, Finals(after));
  }

  lemma SpeechOpens(t: Turn)
    requires t.mode.SemanticVad?
    ensures Step(t, VadSpeechStart).0 == t.(speaking := true, pendingEot := false, finalPending := false)
    ensures !EndsTurn(t, VadSpeechStart)
  {
  }

  lemma SpeechCloses(t: Turn)
    requires t.mode.SemanticVad? && t.speaking
    ensures var t' := Step(t, VadSpeechEnd).0;
            && t'.mode == t.mode && !t'.speaking && (t'.pendingEot <==> !EndsTurn(t, VadSpeechEnd))
            && (EndsTurn(t, VadSpeechEnd) <==> t.finalPending && t.finalTerminal)
  {
    hide EndsSentence;
  }

  lemma OneInput(t: Turn, input: TurnInput)
    ensures TurnsEnded(t, [input]) == (if EndsTurn(t, input) then 1 else 0) && After(t, [input]) == Step(t, input).0
  {
    hide Step;
    hide EndsTurn;
    assert [input][1..] == [];
  }

  // Without voice activity detection no turn ever ends by itself.
  lemma {:induction false} ManualTurnsNeverEnd(t: Turn, inputs: seq<TurnInput>)
    requires t.mode.Manual? && TurnInv(t)
    ensures TurnsEnded(t, inputs) == 0
    decreases |inputs|
  {
    hide EndsSentence;
    if inputs != [] { ManualTurnsNeverEnd(Step(t, inputs[0]).0, inputs[1..]); }
  }

  // A new turn follows its settings.
  lemma NewTurnFollows(td: TurnDetection)
    ensures var t := NewTurn(td);
            && t.mode == td.mode && !t.speaking && !t.pendingEot && !t.finalPending && !t.responseActive
            && (!td.mode.Manual? ==> t.createResponse == td.createResponse
                                     && t.interruptResponse == td.interruptResponse)
  {
  }

  // ---- what ends a sentence --------------------------------------------------------------

  predicate Trailing(r: Rune) {
    IsSpace(r) || IsClosingQuote(r)
  }

  lemma {:induction false} TrimDropsTail(rs: seq<Rune>, tail: seq<Rune>)
    requires Scalars(rs + tail) && forall i :: 0 <= i < |tail| ==> Trailing(tail[i])
    requires rs != [] ==> !Trailing(rs[|rs| - 1])
    ensures TrimRight(Encode(rs + tail)) == Encode(rs)
    decreases |tail|
  {
    hide DecodeLastRune;
    hide EncodeRune;
    hide IsSpace;
    hide IsClosingQuote;
    var all := rs + tail;
    if all == [] {
      assert Encode(all) == [];
    } else {
      var front, r := all[..|all| - 1], all[|all| - 1];
      assert all == front + [r];
      EncodeAppend(front, [r]);
      EncodeOne(r);
      EncodedIsWhole(r);
      DecodeLastEncoded(Encode(front), r);
      assert Encode(all)[..|Encode(all)| - |EncodeRune(r)|] == Encode(front);
      if tail == [] {
        assert all == rs;
      } else {
        assert front == rs + tail[..|tail| - 1];
        TrimDropsTail(rs, tail[..|tail| - 1]);
      }
    }
  }

  // Spaces and closing quotes aside, a text ends a sentence exactly when its last
  // rune is a terminator.
  lemma EndsSentenceMeans(rs: seq<Rune>, tail: seq<Rune>)
    requires Scalars(rs + tail) && forall i :: 0 <= i < |tail| ==> Trailing(tail[i])
    requires rs != [] ==> !Trailing(rs[|rs| - 1])
    ensures EndsSentence(Encode(rs + tail)) <==> rs != [] && IsTerminator(rs[|rs| - 1])
  {
    hide Trailing;
    hide Encode;
    TrimDropsTail(rs, tail);
    assert Scalars(rs) by { assert forall i :: 0 <= i < |rs| ==> rs[i] == (rs + tail)[i]; }
    RunesOfEncoded(rs);
  }
}
