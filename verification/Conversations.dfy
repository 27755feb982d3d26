// The conversation: an ordered list of items with lookup by ref, and its
// projection onto chat messages (internal/session/conversation.go).
module Conversations {
  import opened Utf8

  // 0 means none.
  type ItemRef = nat

  datatype Role = NoRole | SystemRole | UserRole | AssistantRole | ToolRole
  datatype Content = TextContent | AudioContent | ToolCallContent | ToolOutputContent
  datatype ItemStatus = InProgress | Completed | Incomplete

  // The public view of an item.
  datatype ItemView = ItemView(
    ref: ItemRef,
    role: Role,
    content: Content,
    status: ItemStatus,
    text: Text,
    audioMs: int,
    transcriptDone: bool,
    name: Text,
    callId: Text)

  datatype Segment = Segment(textStart: nat, textEnd: nat, audioStart: nat, audioEnd: nat)
  datatype CharTiming = CharTiming(charIndex: nat, startMs: int)

  // The actor-private entry: the view plus the audio bookkeeping of truncate.
  datatype Item = Item(view: ItemView, segments: seq<Segment>, alignment: seq<CharTiming>, audioBytes: nat)

  datatype Conversation = Conversation(items: seq<ItemRef>, index: map<ItemRef, Item>, next: ItemRef)

  const EMPTY: Conversation := Conversation([], map[], 0)

  // Where a client asks for an item to go.
  datatype Place = AtEnd | AtRoot | After(previous: ItemRef)

  function NewRef(c: Conversation): (Conversation, ItemRef) {
    (c.(next := c.next + 1), c.next + 1)
  }

  // First index of ref in items, or -1.
  function IndexOf(items: seq<ItemRef>, ref: ItemRef): (i: int)
    ensures -1 <= i < |items|
    ensures i >= 0 ==> items[i] == ref
    ensures i == -1 <==> ref !in items
  {
    if items == [] then -1
    else if items[0] == ref then 0
    else
      var i := IndexOf(items[1..], ref);
      if i == -1 then -1 else i + 1
  }

  datatype Placed = Refused | At(pos: nat)

  function Position(c: Conversation, place: Place): (p: Placed)
    ensures p.At? ==> p.pos <= |c.items|
  {
    match place
    case AtRoot => At(0)
    case AtEnd => At(|c.items|)
    case After(previous) =>
      if previous !in c.index then Refused else At(IndexOf(c.items, previous) + 1)
  }

  // Gives it a ref when it has none; a ref is consumed even if the place is
  // refused.
  function WithRef(c: Conversation, it: Item): (Conversation, Item) {
    if it.view.ref != 0 then (c, it)
    else (c.(next := c.next + 1), it.(view := it.view.(ref := c.next + 1)))
  }

  function InsertAt(items: seq<ItemRef>, pos: nat, ref: ItemRef): seq<ItemRef>
    requires pos <= |items|
  {
    items[..pos] + [ref] + items[pos..]
  }

  function RemoveAt(items: seq<ItemRef>, pos: nat): seq<ItemRef>
    requires pos < |items|
  {
    items[..pos] + items[pos + 1..]
  }

  datatype Inserted = NotFound(conv: Conversation) | Added(conv: Conversation, item: Item, previous: ItemRef)

  function Insert(c: Conversation, it: Item, place: Place): Inserted {
    var (c1, it1) := WithRef(c, it);
    match Position(c1, place)
    case Refused => NotFound(c1)
    case At(pos) =>
      Added(
        c1.(items := InsertAt(c1.items, pos, it1.view.ref), index := c1.index[it1.view.ref := it1]),
        it1,
        if pos == 0 then 0 else c1.items[pos - 1])
  }

  function AppendItem(c: Conversation, it: Item): (r: Inserted)
    ensures r.Added?
  {
    Insert(c, it, AtEnd)
  }

  function Remove(c: Conversation, ref: ItemRef): Conversation {
    var pos := IndexOf(c.items, ref);
    if ref !in c.index || pos < 0 then c
    else c.(items := RemoveAt(c.items, pos), index := c.index - {ref})
  }

  function Update(c: Conversation, it: Item): Conversation {
    c.(index := c.index[it.view.ref := it])
  }

  // ---- list and index agree -----------------------------------------------------------

  ghost predicate Distinct(items: seq<ItemRef>) {
    forall i, j :: 0 <= i < j < |items| ==> items[i] != items[j]
  }

  // The list and the index describe the same distinct refs, all handed out.
  ghost predicate ConvInv(c: Conversation) {
    && Distinct(c.items)
    && (forall ref :: ref in c.items <==> ref in c.index)
    && (forall ref :: ref in c.index ==> c.index[ref].view.ref == ref && 0 < ref <= c.next)
  }

  lemma InsertAtFacts(items: seq<ItemRef>, pos: nat, ref: ItemRef)
    requires Distinct(items) && ref !in items && pos <= |items|
    ensures Distinct(InsertAt(items, pos, ref))
    ensures forall x :: x in InsertAt(items, pos, ref) <==> x == ref || x in items
    ensures IndexOf(InsertAt(items, pos, ref), ref) == pos
    ensures RemoveAt(InsertAt(items, pos, ref), pos) == items
  {
    InsertAtIsAt(items, pos, ref);
    InsertAtHolds(items, pos, ref);
    hide InsertAt;
    hide RemoveAt;
    hide IndexOf;
    var all := InsertAt(items, pos, ref);
    forall i, j | 0 <= i < j < |all| ensures all[i] != all[j] {
      assert j > pos ==> items[j - 1] in items;
      assert i < pos ==> items[i] in items;
    }
    assert all[pos] == ref;
    assert all[IndexOf(all, ref)] == ref;
  }

  lemma InsertAtHolds(items: seq<ItemRef>, pos: nat, ref: ItemRef)
    requires pos <= |items|
    ensures forall x :: x in InsertAt(items, pos, ref) <==> x == ref || x in items
    ensures RemoveAt(InsertAt(items, pos, ref), pos) == items
  {
    assert items == items[..pos] + items[pos..];
  }

  lemma InsertAtIsAt(items: seq<ItemRef>, pos: nat, ref: ItemRef)
    requires pos <= |items|
    ensures var all := InsertAt(items, pos, ref);
            |all| == |items| + 1
            && forall i :: 0 <= i < |all| ==>
                 all[i] == (if i < pos then items[i] else if i == pos then ref else items[i - 1])
  {
  }

  lemma RemoveAtFacts(items: seq<ItemRef>, pos: nat)
    requires Distinct(items) && pos < |items|
    ensures Distinct(RemoveAt(items, pos))
    ensures forall x :: x in RemoveAt(items, pos) <==> x in items && x != items[pos]
  {
    var rest := RemoveAt(items, pos);
    assert items == items[..pos] + [items[pos]] + items[pos + 1..];
    assert forall i :: 0 <= i < |rest| ==> rest[i] == (if i < pos then items[i] else items[i + 1]);
  }

  lemma InsertKeeps(c: Conversation, it: Item, place: Place)
    requires ConvInv(c)
    requires it.view.ref != 0 ==> it.view.ref <= c.next && it.view.ref !in c.index
    ensures ConvInv(Insert(c, it, place).conv)
  {
    hide Distinct;
    hide InsertAt;
    hide IndexOf;
    var (c1, it1) := WithRef(c, it);
    match Position(c1, place)
    case Refused =>
    case At(pos) => InsertAtFacts(c.items, pos, it1.view.ref);
  }

  // Item ref stands in the list behind previous, or first when previous is 0.
  ghost predicate StandsBehind(items: seq<ItemRef>, ref: ItemRef, previous: ItemRef) {
    exists i :: StandsAt(items, i, ref, previous)
  }

  predicate StandsAt(items: seq<ItemRef>, i: int, ref: ItemRef, previous: ItemRef) {
    0 <= i < |items| && items[i] == ref && previous == if i == 0 then 0 else items[i - 1]
  }

  // items with ref put right behind previous.
  ghost predicate PutBehind(items: seq<ItemRef>, items': seq<ItemRef>, ref: ItemRef, previous: ItemRef) {
    exists k :: 0 <= k < |items| && items[k] == previous && items' == items[..k + 1] + [ref] + items[k + 1..]
  }

  // What an insertion does: the item goes where it was asked to go, under its own
  // ref or the next one, and is told to follow what it does follow; a refused one
  // uses up a ref at most.
  lemma InsertPlaces(c: Conversation, it: Item, place: Place)
    requires ConvInv(c)
    ensures match Insert(c, it, place)
            case NotFound(c') =>
              && place.After? && place.previous !in c.index
              && c' == c.(next := if it.view.ref == 0 then c.next + 1 else c.next)
            case Added(c', it', previous) =>
              && it' == (if it.view.ref == 0 then it.(view := it.view.(ref := c.next + 1)) else it)
              && c'.next == (if it.view.ref == 0 then c.next + 1 else c.next)
              && c'.index == c.index[it'.view.ref := it']
              && StandsBehind(c'.items, it'.view.ref, previous)
              && (place.AtRoot? ==> c'.items == [it'.view.ref] + c.items && previous == 0)
              && (place.AtEnd? ==>
                    c'.items == c.items + [it'.view.ref]
                    && previous == if c.items == [] then 0 else c.items[|c.items| - 1])
              && (place.After? ==>
                    previous == place.previous && PutBehind(c.items, c'.items, it'.view.ref, place.previous))
  {
    hide Distinct;
    hide InsertAt;
    var (c1, it1) := WithRef(c, it);
    InsertAtEnds(c.items, it1.view.ref);
    match Position(c1, place)
    case Refused =>
    case At(pos) =>
      StandsThere(c.items, pos, it1.view.ref);
      if place.After? { PutsBehind(c.items, pos - 1, it1.view.ref); }
  }

  lemma StandsThere(items: seq<ItemRef>, pos: nat, ref: ItemRef)
    requires pos <= |items|
    ensures StandsBehind(InsertAt(items, pos, ref), ref, if pos == 0 then 0 else items[pos - 1])
  {
    InsertAtIsAt(items, pos, ref);
    assert StandsAt(InsertAt(items, pos, ref), pos, ref, if pos == 0 then 0 else items[pos - 1]);
  }

  lemma PutsBehind(items: seq<ItemRef>, k: nat, ref: ItemRef)
    requires k < |items|
    ensures PutBehind(items, InsertAt(items, k + 1, ref), ref, items[k])
  {
    assert InsertAt(items, k + 1, ref) == items[..k + 1] + [ref] + items[k + 1..];
  }

  // Removing what was just inserted restores the list and the index.
  lemma RemoveUndoesInsert(c: Conversation, it: Item, place: Place)
    requires ConvInv(c)
    requires it.view.ref != 0 ==> it.view.ref <= c.next && it.view.ref !in c.index
    requires Insert(c, it, place).Added?
    ensures var added := Insert(c, it, place);
            var undone := Remove(added.conv, added.item.view.ref);
            undone.items == c.items && undone.index == c.index
  {
    hide Distinct;
    hide InsertAt;
    hide RemoveAt;
    hide IndexOf;
    var (c1, it1) := WithRef(c, it);
    var ref := it1.view.ref;
    InsertAtFacts(c.items, Position(c1, place).pos, ref);
    assert c.index[ref := it1] - {ref} == c.index;
  }

  lemma InsertAtEnds(items: seq<ItemRef>, ref: ItemRef)
    ensures InsertAt(items, 0, ref) == [ref] + items
    ensures InsertAt(items, |items|, ref) == items + [ref]
  {
  }

  lemma RemoveKeeps(c: Conversation, ref: ItemRef)
    requires ConvInv(c)
    ensures ConvInv(Remove(c, ref))
    ensures Remove(c, ref).index == c.index - {ref}
    ensures forall x :: x in Remove(c, ref).items <==> x in c.items && x != ref
  {
    hide Distinct;
    hide RemoveAt;
    if ref in c.index {
      RemoveAtFacts(c.items, IndexOf(c.items, ref));
    }
  }

  // A removed item leaves the others in their order.
  lemma RemoveCutsOut(c: Conversation, before: seq<ItemRef>, ref: ItemRef, after: seq<ItemRef>)
    requires ConvInv(c) && c.items == before + [ref] + after
    ensures Remove(c, ref) == c.(items := before + after, index := c.index - {ref})
  {
    var k := |before|;
    assert c.items[k] == ref && IndexOf(c.items, ref) == k;
    assert c.items[..k] == before && c.items[k + 1..] == after;
  }

  lemma UpdateKeeps(c: Conversation, it: Item)
    requires ConvInv(c) && it.view.ref in c.index
    ensures ConvInv(Update(c, it))
  {
  }

  // ---- runs -----------------------------------------------------------------------------

  datatype Edit = Put(item: Item, place: Place) | Delete(ref: ItemRef)

  function ApplyEdit(c: Conversation, e: Edit): Conversation {
    match e
    case Put(it, place) => Insert(c, it.(view := it.view.(ref := 0)), place).conv
    case Delete(ref) => Remove(c, ref)
  }

  function ApplyEdits(c: Conversation, edits: seq<Edit>): Conversation
    decreases |edits|
  {
    if edits == [] then c else ApplyEdits(ApplyEdit(c, edits[0]), edits[1..])
  }

  // Under any sequence of insertions and removals, accepted or refused, list
  // and index describe the same distinct refs.
  lemma {:induction false} EditsKeep(c: Conversation, edits: seq<Edit>)
    requires ConvInv(c)
    ensures ConvInv(ApplyEdits(c, edits))
    decreases |edits|
  {
    if edits != [] {
      match edits[0]
      case Put(it, place) =>
        InsertKeeps(c, it.(view := it.view.(ref := 0)), place);
        EditsKeep(ApplyEdit(c, edits[0]), edits[1..]);
      case Delete(ref) =>
        RemoveKeeps(c, ref);
        EditsKeep(ApplyEdit(c, edits[0]), edits[1..]);
    }
  }

  // ---- replay ---------------------------------------------------------------------------

  datatype ToolCall = ToolCall(id: Text, name: Text, arguments: Text)

  // toolCalls holds at most one call; empty stands for nil.
  datatype Message = Message(role: Role, content: Text, toolCalls: seq<ToolCall>, toolCallId: Text)

  function CallOf(it: ItemView): ToolCall {
    ToolCall(it.callId, it.name, it.text)
  }

  // One item's effect on the messages built so far.
  function AddMessage(out: seq<Message>, it: ItemView): seq<Message> {
    match it.content
    case ToolCallContent =>
      var n := |out|;
      if n > 0 && out[n - 1].role.AssistantRole? && out[n - 1].toolCalls == [] then
        out[n - 1 := out[n - 1].(toolCalls := [CallOf(it)])]
      else out + [Message(AssistantRole, [], [CallOf(it)], [])]
    case ToolOutputContent => out + [Message(ToolRole, it.text, [], it.callId)]
    case _ => if it.text == [] then out else out + [Message(it.role, it.text, [], [])]
  }

  function MessagesOf(items: seq<ItemView>): seq<Message> {
    if items == [] then []
    else AddMessage(MessagesOf(items[..|items| - 1]), items[|items| - 1])
  }

  // The items as the projection reads them.
  function Views(c: Conversation): seq<ItemView> {
    seq(|c.items|, i requires 0 <= i < |c.items| =>
      if c.items[i] in c.index then c.index[c.items[i]].view else BLANK_VIEW)
  }

  const BLANK_VIEW: ItemView := ItemView(0, NoRole, TextContent, InProgress, [], 0, false, [], [])

  // What a message says, piece by piece: its text, then its call.
  datatype Piece =
    | Said(role: Role, text: Text)
    | Called(call: ToolCall)
    | Answered(callId: Text, text: Text)

  function Expand(m: Message): seq<Piece> {
    (if m.role.ToolRole? then [Answered(m.toolCallId, m.content)]
     else if m.content == [] then [] else [Said(m.role, m.content)])
    + (if m.toolCalls == [] then [] else [Called(m.toolCalls[0])])
  }

  function ExpandAll(ms: seq<Message>): seq<Piece> {
    if ms == [] then [] else ExpandAll(ms[..|ms| - 1]) + Expand(ms[|ms| - 1])
  }

  // What an item says; a blank item that is no tool item says nothing.
  function PieceOf(it: ItemView): seq<Piece> {
    match it.content
    case ToolCallContent => [Called(ToolCall(it.callId, it.name, it.text))]
    case ToolOutputContent => [Answered(it.callId, it.text)]
    case _ => if it.text == [] then [] else [Said(it.role, it.text)]
  }

  function Pieces(items: seq<ItemView>): seq<Piece> {
    if items == [] then [] else Pieces(items[..|items| - 1]) + PieceOf(items[|items| - 1])
  }

  // A message carries at most one call, of the assistant; every message says or
  // calls something; and a call stands by itself only where no assistant message
  // was there to take it.
  ghost predicate Replayable(ms: seq<Message>) {
    forall i :: 0 <= i < |ms| ==>
      && |ms[i].toolCalls| <= 1
      && (ms[i].role.ToolRole? ==> ms[i].toolCalls == [])
      && (!ms[i].role.ToolRole? ==> ms[i].toolCallId == [])
      && (ms[i].toolCalls != [] ==> ms[i].role.AssistantRole?)
      && (ms[i].toolCalls == [] && !ms[i].role.ToolRole? ==> ms[i].content != [])
      && (ms[i].toolCalls != [] && ms[i].content == [] && i > 0 ==>
            !(ms[i - 1].role.AssistantRole? && ms[i - 1].toolCalls == []))
  }

  // No item outside the tool items carries the tool role.
  ghost predicate PlainRoles(items: seq<ItemView>) {
    forall i :: 0 <= i < |items| && (items[i].content.TextContent? || items[i].content.AudioContent?) ==>
      !items[i].role.ToolRole?
  }

  lemma ExpandSnoc(ms: seq<Message>, m: Message)
    ensures ExpandAll(ms + [m]) == ExpandAll(ms) + Expand(m)
  {
    assert (ms + [m])[..|ms|] == ms;
  }

  lemma MergeExpands(out: seq<Message>, call: ToolCall)
    requires out != [] && out[|out| - 1].toolCalls == [] && !out[|out| - 1].role.ToolRole?
    ensures var n := |out| - 1;
            ExpandAll(out[n := out[n].(toolCalls := [call])]) == ExpandAll(out) + [Called(call)]
  {
    var n := |out| - 1;
    var merged := out[n].(toolCalls := [call]);
    ExpandSnoc(out[..n], merged);
    assert out[n := merged] == out[..n] + [merged];
    assert Expand(merged) == Expand(out[n]) + [Called(call)];
  }

  lemma AddMessageExpands(out: seq<Message>, it: ItemView)
    requires Replayable(out)
    requires it.content.TextContent? || it.content.AudioContent? ==> !it.role.ToolRole?
    ensures Replayable(AddMessage(out, it))
    ensures ExpandAll(AddMessage(out, it)) == ExpandAll(out) + PieceOf(it)
  {
    hide ExpandAll;
    var n := |out|;
    if it.content.ToolCallContent? {
      if n > 0 && out[n - 1].role.AssistantRole? && out[n - 1].toolCalls == [] {
        MergeExpands(out, CallOf(it));
      } else {
        ExpandSnoc(out, Message(AssistantRole, [], [CallOf(it)], []));
      }
    } else if it.content.ToolOutputContent? {
      ExpandSnoc(out, Message(ToolRole, it.text, [], it.callId));
    } else if it.text != [] {
      ExpandSnoc(out, Message(it.role, it.text, [], []));
    }
  }

  // Expanding the replayed messages gives back the items that say something,
  // in order; no message carries more than one call, and a call is with the
  // assistant message it follows.
  lemma {:induction false} ReplayIsFaithful(items: seq<ItemView>)
    requires PlainRoles(items)
    ensures Replayable(MessagesOf(items))
    ensures ExpandAll(MessagesOf(items)) == Pieces(items)
    decreases |items|
  {
    if items != [] {
      var front := items[..|items| - 1];
      ReplayIsFaithful(front);
      AddMessageExpands(MessagesOf(front), items[|items| - 1]);
    }
  }
}
