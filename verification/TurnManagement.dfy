// The turn-taking machine as the object the session steps
// (internal/session/turn.go:64-186).
module TurnManagement {
  import Turns

  class TurnManager {
    var mode: Turns.TurnMode
    var createResponse: bool
    var interruptResponse: bool
    var responseActive: bool
    var speaking: bool
    var pendingEot: bool
    var finalPending: bool
    var finalTerminal: bool

    function State(): Turns.Turn
      reads this
    {
      Turns.Turn(mode, createResponse, interruptResponse, responseActive, speaking, pendingEot, finalPending,
                 finalTerminal)
    }

    constructor (td: Turns.TurnDetection)
      ensures State() == Turns.NewTurn(td)
    {
      mode := td.mode;
      createResponse := !td.mode.Manual? && td.createResponse;
      interruptResponse := !td.mode.Manual? && td.interruptResponse;
      responseActive, speaking, pendingEot, finalPending, finalTerminal := false, false, false, false, false;
    }

    method ResetTurn()
      modifies this`speaking, this`pendingEot, this`finalPending
      ensures State() == Turns.ResetTurn(old(State()))
    {
      speaking, pendingEot, finalPending := false, false, false;
    }

    method EndTurn(d: Turns.Decision) returns (d': Turns.Decision)
      modifies this`speaking, this`pendingEot, this`finalPending
      ensures (State(), d') == Turns.EndTurn(old(State()), d)
    {
      d' := d.(commit := true);
      if mode.SemanticVad? {
        d' := d'.(deferTrigger := createResponse);
      } else {
        d' := d'.(trigger := createResponse);
      }
      ResetTurn();
    }

    method Judge(terminal: bool, d: Turns.Decision) returns (d': Turns.Decision)
      modifies this`speaking, this`pendingEot, this`finalPending
      ensures (State(), d') == Turns.Judge(old(State()), terminal, d)
    {
      if terminal {
        d' := EndTurn(d);
      } else {
        d' := d.(armEndOfTurn := true);
      }
    }

    method Step(input: Turns.TurnInput) returns (d: Turns.Decision)
      modifies this
      ensures (State(), d) == Turns.Step(old(State()), input)
    {
      d := Turns.NOTHING;
      match input
      case ResponseStarted => responseActive := true;
      case ResponseEnded => responseActive := false;
      case ClientCommit =>
        d := d.(commit := true);
        ResetTurn();
      case ClientCreateResponse => d := d.(trigger := true);
      case VadSpeechStart =>
        if mode.Manual? { return; }
        speaking := true;
        pendingEot := false;
        finalPending := false;
        d := d.(emitSpeechStarted := true, interrupt := interruptResponse && responseActive);
      case VadSpeechEnd =>
        if mode.Manual? || !speaking { return; }
        speaking := false;
        d := d.(emitSpeechStopped := true);
        if mode.ServerVad? {
          d := EndTurn(d);
        } else {
          pendingEot := true;
          if finalPending {
            finalPending := false;
            d := Judge(finalTerminal, d);
          } else {
            d := d.(armFinalWait := true);
          }
        }
      case AsrFinal(text) =>
        if !mode.SemanticVad? { return; }
        var terminal := Turns.EndsSentence(text);
        if pendingEot {
          d := Judge(terminal, d);
        } else if speaking {
          finalPending := true;
          finalTerminal := terminal;
        }
      case AsrEndOfTurn =>
        if mode.SemanticVad? && pendingEot { d := EndTurn(d); }
    }
  }
}
