// The conversation as the object the session edits in place
// (internal/session/conversation.go:28-136).
module ConversationLists {
  import opened Utf8
  import opened Conversations

  class ConversationList {
    var items: seq<ItemRef>
    var index: map<ItemRef, Item>
    var next: ItemRef

    function State(): Conversation
      reads this
    {
      Conversation(items, index, next)
    }

    constructor ()
      ensures State() == EMPTY
    {
      items, index, next := [], map[], 0;
    }

    method NewRef() returns (ref: ItemRef)
      modifies this`next
      ensures (State(), ref) == Conversations.NewRef(old(State()))
    {
      next := next + 1;
      ref := next;
    }

    // An item is changed in place.
    method Update(it: Item)
      modifies this`index
      ensures State() == Conversations.Update(old(State()), it)
    {
      index := index[it.view.ref := it];
    }

    method Position(ref: ItemRef) returns (pos: int)
      ensures pos == IndexOf(items, ref)
    {
      for i := 0 to |items|
        invariant IndexOf(items, ref) == (if IndexOf(items[i..], ref) == -1 then -1 else i + IndexOf(items[i..], ref))
      {
        if items[i] == ref { return i; }
        assert items[i..][1..] == items[i + 1..];
      }
      pos := -1;
    }

    // Places it and reports the item it now follows; a ref is used up even
    // when the place is refused.
    method Insert(it: Item, place: Place) returns (inserted: Inserted)
      modifies this
      ensures inserted == Conversations.Insert(old(State()), it, place)
      ensures State() == inserted.conv
    {
      var placed := it;
      if it.view.ref == 0 {
        next := next + 1;
        placed := it.(view := it.view.(ref := next));
      }
      var pos := |items|;
      match place {
        case AtEnd =>
        case AtRoot => pos := 0;
        case After(previous) =>
          if previous !in index { return NotFound(Conversation(items, index, next)); }
          var p := Position(previous);
          pos := p + 1;
      }
      items := items[..pos] + [placed.view.ref] + items[pos..];
      index := index[placed.view.ref := placed];
      var previous := if pos == 0 then 0 else items[pos - 1];
      inserted := Added(Conversation(items, index, next), placed, previous);
    }

    method Remove(ref: ItemRef) returns (ok: bool)
      modifies this`items, this`index
      ensures State() == Conversations.Remove(old(State()), ref)
      ensures ok == (ref in old(index))
    {
      if ref !in index { return false; }
      var pos := Position(ref);
      if pos >= 0 {
        items := items[..pos] + items[pos + 1..];
        index := index - {ref};
      }
      ok := true;
    }

    // The chat messages the language model is shown.
    method Messages() returns (out: seq<Message>)
      ensures out == MessagesOf(Views(State()))
    {
      out := [];
      ghost var views := Views(State());
      for i := 0 to |items|
        invariant out == MessagesOf(views[..i])
      {
        var it := if items[i] in index then index[items[i]].view else BLANK_VIEW;
        assert views[..i + 1][..i] == views[..i] && views[..i + 1][i] == it;
        match it.content {
          case ToolCallContent =>
            var n := |out|;
            if n > 0 && out[n - 1].role.AssistantRole? && out[n - 1].toolCalls == [] {
              out := out[n - 1 := out[n - 1].(toolCalls := [CallOf(it)])];
            } else {
              out := out + [Message(AssistantRole, [], [CallOf(it)], [])];
            }
          case ToolOutputContent => out := out + [Message(ToolRole, it.text, [], it.callId)];
          case _ => if it.text != [] { out := out + [Message(it.role, it.text, [], [])]; }
        }
      }
      assert views[..|items|] == views;
    }

    // Whether a tool output for callId exists.
    method Answered(callId: Text) returns (found: bool)
      ensures found <==> exists i :: (0 <= i < |items| && items[i] in index
        && index[items[i]].view.content.ToolOutputContent? && index[items[i]].view.callId == callId)
    {
      for i := 0 to |items|
        invariant forall j :: 0 <= j < i && items[j] in index ==>
          !(index[items[j]].view.content.ToolOutputContent? && index[items[j]].view.callId == callId)
      {
        if items[i] in index {
          var it := index[items[i]].view;
          if it.content.ToolOutputContent? && it.callId == callId { return true; }
        }
      }
      found := false;
    }
  }
}
