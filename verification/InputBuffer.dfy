// The uncommitted input audio and its millisecond timeline
// (internal/session/buffer.go).
module InputBuffer {
  import opened Audio

  // baseMs: where detector offsets are measured from. headMs: timeline offset
  // of pcm[0]. segStartMs, segEndMs: the marked speech segment, -1 when unset.
  datatype Buffer = Buffer(
    pcm: Bytes,
    baseMs: int,
    headMs: int,
    maxBytes: int,
    segStartMs: int,
    segEndMs: int)

  function NewBuffer(maxMs: int): Buffer {
    Buffer([], 0, 0, MsToBytes(maxMs), -1, -1)
  }

  predicate Overflows(b: Buffer, pcm: Bytes) {
    |b.pcm| + |pcm| > b.maxBytes
  }

  function Append(b: Buffer, pcm: Bytes): Buffer {
    if Overflows(b, pcm) then b else b.(pcm := b.pcm + pcm)
  }

  function TotalMs(b: Buffer): int {
    b.headMs + BytesToMs(|b.pcm|)
  }

  function SpeechStartMs(b: Buffer, offsetMs: int, prefixMs: int): int {
    var start := b.baseMs + offsetMs - prefixMs;
    if start < b.headMs then b.headMs else start
  }

  function MarkSpeechStart(b: Buffer, offsetMs: int, prefixMs: int): Buffer {
    b.(segStartMs := SpeechStartMs(b, offsetMs, prefixMs), segEndMs := -1)
  }

  function SpeechEndMs(b: Buffer, offsetMs: int, silenceMs: int): int {
    var end := b.baseMs + offsetMs + silenceMs;
    if end > TotalMs(b) then TotalMs(b) else end
  }

  function MarkSpeechEnd(b: Buffer, offsetMs: int, silenceMs: int): Buffer {
    b.(segEndMs := SpeechEndMs(b, offsetMs, silenceMs))
  }

  datatype Commit = Empty | OutOfRange | Committed(pcm: Bytes, startMs: int, endMs: int)

  function CommitStartMs(b: Buffer): int {
    if b.segStartMs >= 0 then b.segStartMs else b.headMs
  }

  function CommitEndMs(b: Buffer): int {
    if b.segEndMs >= 0 && b.segEndMs > CommitStartMs(b) then b.segEndMs else TotalMs(b)
  }

  function Min(a: int, b: int): int {
    if a < b then a else b
  }

  // The bounds at which commit slices: Go would panic if they were out of order
  // or outside the held audio.
  function CommitFrom(b: Buffer): int {
    MsToBytes(CommitStartMs(b) - b.headMs)
  }

  function CommitTo(b: Buffer): int {
    Min(MsToBytes(CommitEndMs(b) - b.headMs), |b.pcm|)
  }

  predicate Sliceable(b: Buffer) {
    0 <= CommitFrom(b) <= CommitTo(b)
  }

  function CommitResult(b: Buffer): Commit {
    if b.pcm == [] then Empty
    else if !Sliceable(b) then OutOfRange
    else Committed(b.pcm[CommitFrom(b)..CommitTo(b)], CommitStartMs(b), CommitEndMs(b))
  }

  function Clear(b: Buffer): Buffer {
    Buffer([], TotalMs(b), TotalMs(b), b.maxBytes, -1, -1)
  }

  function AfterCommit(b: Buffer): Buffer {
    if b.pcm == [] || !Sliceable(b) then b else Clear(b)
  }

  function TrimIdle(b: Buffer, keepMs: nat): Buffer {
    var drop := BytesToMs(|b.pcm|) - keepMs;
    if b.segStartMs >= 0 || drop <= 0 then b
    else
      assert 48 * drop <= |b.pcm|;
      b.(pcm := b.pcm[MsToBytes(drop)..], headMs := b.headMs + drop)
  }

  // ---- the buffer's own invariant -----------------------------------------------

  // Everything the slice bounds of commit depend on.
  predicate BufferInv(b: Buffer) {
    && 0 <= b.baseMs <= b.headMs
    && -1 <= b.segStartMs && -1 <= b.segEndMs
    && (b.segStartMs >= 0 ==> b.headMs <= b.segStartMs <= TotalMs(b))
    && b.segEndMs <= TotalMs(b)
  }

  // A detector offset lies within the audio since the last clear.
  predicate OffsetHeld(b: Buffer, offsetMs: int) {
    0 <= offsetMs && b.baseMs + offsetMs <= TotalMs(b)
  }

  lemma AppendKeeps(b: Buffer, pcm: Bytes)
    requires BufferInv(b)
    ensures BufferInv(Append(b, pcm))
    ensures TotalMs(b) <= TotalMs(Append(b, pcm))
  {
  }

  lemma MarksKeep(b: Buffer, offsetMs: int, prefixMs: int, silenceMs: int)
    requires BufferInv(b) && OffsetHeld(b, offsetMs) && prefixMs >= 0 && silenceMs >= 0
    ensures BufferInv(MarkSpeechStart(b, offsetMs, prefixMs))
    ensures BufferInv(MarkSpeechEnd(b, offsetMs, silenceMs))
  {
  }

  // The slice bounds of commit are always valid, and the committed audio is
  // exactly 48 bytes for every millisecond it reports.
  lemma CommitIsExact(b: Buffer)
    requires BufferInv(b)
    ensures 0 <= CommitFrom(b) <= CommitTo(b) <= |b.pcm|
    ensures CommitTo(b) == MsToBytes(CommitEndMs(b) - b.headMs)
    ensures b.headMs <= CommitStartMs(b) <= CommitEndMs(b) <= TotalMs(b)
    ensures b.pcm != [] ==>
      |CommitResult(b).pcm| == BYTES_PER_MS * (CommitResult(b).endMs - CommitResult(b).startMs)
  {
  }

  // Where a commit starts and ends: at the start mark, or at the first held
  // millisecond when there is none; at the end mark where that lies behind the
  // start, and at the last whole millisecond held otherwise.
  lemma CommitTakes(b: Buffer)
    requires BufferInv(b) && b.pcm != []
    ensures var c := CommitResult(b);
            && c.Committed?
            && c.startMs == (if b.segStartMs == -1 then b.headMs else b.segStartMs)
            && (b.segEndMs > c.startMs ==> c.endMs == b.segEndMs)
            && (b.segEndMs <= c.startMs ==> c.endMs == b.headMs + |b.pcm| / 48)
            && c.pcm == b.pcm[48 * (c.startMs - b.headMs)..48 * (c.endMs - b.headMs)]
  {
    CommitIsExact(b);
  }

  // A spoken turn commits the audio from prefixMs before the detected start to
  // silenceMs behind the detected end, as far as it is held; an end that does not
  // lie behind the start is ignored. The first held millisecond counts as 0.
  lemma SpeechIsCommitted(
    b: Buffer, startOffsetMs: nat, prefixMs: nat, more: Bytes, endOffsetMs: nat, silenceMs: nat)
    requires BufferInv(b) && OffsetHeld(b, startOffsetMs) && !Overflows(b, more) && b.pcm + more != []
    requires OffsetHeld(Append(b, more), endOffsetMs)
    ensures var spoken := Append(MarkSpeechStart(b, startOffsetMs, prefixMs), more);
            var all := b.pcm + more;
            var whole := |all| / 48;
            var start := b.baseMs + startOffsetMs - prefixMs - b.headMs;
            var end := b.baseMs + endOffsetMs + silenceMs - b.headMs;
            var from := if start < 0 then 0 else start;
            var to := if from < end < whole then end else whole;
            && 0 <= from <= whole
            && CommitResult(MarkSpeechEnd(spoken, endOffsetMs, silenceMs))
               == Committed(all[48 * from..48 * to], b.headMs + from, b.headMs + to)
            && CommitResult(spoken) == Committed(all[48 * from..48 * whole], b.headMs + from, b.headMs + whole)
  {
    hide BufferInv;
    hide CommitResult;
    var started := MarkSpeechStart(b, startOffsetMs, prefixMs);
    var spoken := Append(started, more);
    MarksKeep(b, startOffsetMs, prefixMs, silenceMs);
    AppendKeeps(started, more);
    MarksKeep(spoken, endOffsetMs, prefixMs, silenceMs);
    CommitTakes(spoken);
    CommitTakes(MarkSpeechEnd(spoken, endOffsetMs, silenceMs));
    HeldBounds(spoken);
  }

  lemma HeldBounds(b: Buffer)
    requires BufferInv(b)
    ensures 0 <= b.baseMs <= b.headMs && (b.segStartMs >= 0 ==> b.segStartMs <= TotalMs(b))
  {
  }

  lemma TrimKeeps(b: Buffer, keepMs: nat)
    requires BufferInv(b)
    ensures BufferInv(TrimIdle(b, keepMs))
    ensures TotalMs(TrimIdle(b, keepMs)) == TotalMs(b)
  {
    var drop := BytesToMs(|b.pcm|) - keepMs;
    if b.segStartMs < 0 && drop > 0 {
      assert 48 * drop <= |b.pcm|;
    }
  }

  // ---- whole runs of the buffer ---------------------------------------------------

  datatype Op =
    | OpAppend(pcm: Bytes)
    | OpStart(offsetMs: nat, prefixMs: nat)
    | OpEnd(offsetMs: nat, silenceMs: nat)
    | OpTrim(keepMs: nat)
    | OpClear
    | OpCommit

  predicate Allowed(b: Buffer, op: Op) {
    match op
    case OpStart(offset, _) => OffsetHeld(b, offset)
    case OpEnd(offset, _) => OffsetHeld(b, offset)
    case _ => true
  }

  function Apply(b: Buffer, op: Op): Buffer {
    match op
    case OpAppend(pcm) => Append(b, pcm)
    case OpStart(offset, prefix) => MarkSpeechStart(b, offset, prefix)
    case OpEnd(offset, silence) => MarkSpeechEnd(b, offset, silence)
    case OpTrim(keep) => TrimIdle(b, keep)
    case OpClear => Clear(b)
    case OpCommit => AfterCommit(b)
  }

  ghost predicate AllAllowed(b: Buffer, ops: seq<Op>)
    decreases |ops|
  {
    ops == [] || (Allowed(b, ops[0]) && AllAllowed(Apply(b, ops[0]), ops[1..]))
  }

  datatype Span = Span(startMs: int, endMs: int, bytes: nat)

  // What the successful commits of a run report, in order.
  ghost function Spans(b: Buffer, ops: seq<Op>): seq<Span>
    requires BufferInv(b) && AllAllowed(b, ops)
    decreases |ops|
  {
    if ops == [] then []
    else
      ApplyKeeps(b, ops[0]);
      CommitIsExact(b);
      (if ops[0].OpCommit? && b.pcm != [] then
         var c := CommitResult(b);
         [Span(c.startMs, c.endMs, |c.pcm|)]
       else []) + Spans(Apply(b, ops[0]), ops[1..])
  }

  lemma ApplyKeeps(b: Buffer, op: Op)
    requires BufferInv(b) && Allowed(b, op)
    ensures BufferInv(Apply(b, op))
    ensures b.headMs <= Apply(b, op).headMs
    ensures TotalMs(b) <= TotalMs(Apply(b, op))
  {
    match op
    case OpAppend(pcm) => AppendKeeps(b, pcm);
    case OpStart(offset, prefix) => MarksKeep(b, offset, prefix, 0);
    case OpEnd(offset, silence) => MarksKeep(b, offset, 0, silence);
    case OpTrim(keep) => TrimKeeps(b, keep);
    case OpClear =>
    case OpCommit =>
  }

  // Committed spans are ordered and disjoint, start no earlier than notBefore,
  // and hold exactly 48 bytes for every reported millisecond.
  ghost predicate Ordered(spans: seq<Span>, notBefore: int)
    decreases |spans|
  {
    spans == [] ||
    (&& notBefore <= spans[0].startMs <= spans[0].endMs
     && spans[0].bytes == 48 * (spans[0].endMs - spans[0].startMs)
     && Ordered(spans[1..], spans[0].endMs))
  }

  lemma {:induction false} OrderedWeaken(spans: seq<Span>, a: int, b: int)
    requires Ordered(spans, b) && a <= b
    ensures Ordered(spans, a)
  {
  }

  lemma {:induction false} SpansAreOrdered(b: Buffer, ops: seq<Op>)
    requires BufferInv(b) && AllAllowed(b, ops)
    ensures Ordered(Spans(b, ops), b.headMs)
    decreases |ops|
  {
    if ops != [] {
      var b' := Apply(b, ops[0]);
      ApplyKeeps(b, ops[0]);
      SpansAreOrdered(b', ops[1..]);
      CommitIsExact(b);
      if ops[0].OpCommit? && b.pcm != [] {
        OrderedWeaken(Spans(b', ops[1..]), CommitEndMs(b), b'.headMs);
        assert Spans(b, ops)[1..] == Spans(b', ops[1..]);
      } else {
        OrderedWeaken(Spans(b', ops[1..]), b.headMs, b'.headMs);
        assert Spans(b, ops) == Spans(b', ops[1..]);
      }
    }
  }

  // ---- the timeline never runs ahead ------------------------------------------------

  function Appended(b: Buffer, op: Op): nat {
    if op.OpAppend? && !Overflows(b, op.pcm) then |op.pcm| else 0
  }

  function Drops(b: Buffer, op: Op): nat {
    if op.OpClear? || (op.OpCommit? && b.pcm != []) then 1 else 0
  }

  ghost function TotalAppended(b: Buffer, ops: seq<Op>): nat
    decreases |ops|
  {
    if ops == [] then 0 else Appended(b, ops[0]) + TotalAppended(Apply(b, ops[0]), ops[1..])
  }

  ghost function TotalDrops(b: Buffer, ops: seq<Op>): nat
    decreases |ops|
  {
    if ops == [] then 0 else Drops(b, ops[0]) + TotalDrops(Apply(b, ops[0]), ops[1..])
  }

  ghost function Final(b: Buffer, ops: seq<Op>): Buffer
    decreases |ops|
  {
    if ops == [] then b else Final(Apply(b, ops[0]), ops[1..])
  }

  // Bytes the timeline accounts for.
  function Accounted(b: Buffer): int {
    48 * b.headMs + |b.pcm|
  }

  lemma ApplyAccounts(b: Buffer, op: Op)
    requires BufferInv(b) && Allowed(b, op)
    ensures var b' := Apply(b, op);
            && Accounted(b') <= Accounted(b) + Appended(b, op)
            && Accounted(b) + Appended(b, op) - 47 * Drops(b, op) <= Accounted(b')
  {
    if op.OpTrim? {
      var drop := BytesToMs(|b.pcm|) - op.keepMs;
      if b.segStartMs < 0 && drop > 0 { assert 48 * drop <= |b.pcm|; }
    }
  }

  lemma {:induction false} RunAccounts(b: Buffer, ops: seq<Op>)
    requires BufferInv(b) && AllAllowed(b, ops)
    ensures BufferInv(Final(b, ops))
    ensures Accounted(Final(b, ops)) <= Accounted(b) + TotalAppended(b, ops)
    ensures Accounted(b) + TotalAppended(b, ops) - 47 * TotalDrops(b, ops) <= Accounted(Final(b, ops))
    decreases |ops|
  {
    if ops != [] {
      ApplyKeeps(b, ops[0]);
      ApplyAccounts(b, ops[0]);
      RunAccounts(Apply(b, ops[0]), ops[1..]);
    }
  }

  // After n clears or commits the timeline is never ahead of the audio that was
  // appended, and lags it by at most n milliseconds.
  lemma TimelineTracksAudio(maxMs: int, ops: seq<Op>)
    requires AllAllowed(NewBuffer(maxMs), ops)
    ensures var appendedMs := TotalAppended(NewBuffer(maxMs), ops) / 48;
            var total := TotalMs(Final(NewBuffer(maxMs), ops));
            appendedMs - TotalDrops(NewBuffer(maxMs), ops) <= total <= appendedMs
  {
    RunAccounts(NewBuffer(maxMs), ops);
  }
}
