// Mapping the service's timeline, which holds keep-alive silence, back onto the
// audio that was pushed (internal/provider/qwen/asr.go:462-472, 621-635).
module AsrTimeline {
  datatype Gap = Gap(at: int, ms: int)

  function UnpadFrom(gaps: seq<Gap>, shift: int, ms: int): int
    decreases |gaps|
  {
    if gaps == [] || ms <= gaps[0].at then ms - shift
    else if ms < gaps[0].at + gaps[0].ms then gaps[0].at - shift
    else UnpadFrom(gaps[1..], shift + gaps[0].ms, ms)
  }

  function Unpadded(gaps: seq<Gap>, ms: int): int {
    UnpadFrom(gaps, 0, ms)
  }

  method Unpad(gaps: seq<Gap>, ms: int) returns (r: int)
    ensures r == Unpadded(gaps, ms)
  {
    var shift := 0;
    for i := 0 to |gaps|
      invariant Unpadded(gaps, ms) == UnpadFrom(gaps[i..], shift, ms)
    {
      var g := gaps[i];
      if ms <= g.at { break; }
      if ms < g.at + g.ms { return g.at - shift; }
      assert gaps[i..][1..] == gaps[i + 1..];
      shift := shift + g.ms;
    }
    r := ms - shift;
  }

  // ---- what a task is made of --------------------------------------------------------------------

  // One frame of a task: pushed audio, or keep-alive silence.
  datatype Slot = Voice(ms: nat) | Pad(ms: nat)

  // Length of a recognition task as the service sees it, and as it was pushed.
  function ServiceMs(task: seq<Slot>): nat {
    if task == [] then 0 else ServiceMs(task[..|task| - 1]) + task[|task| - 1].ms
  }

  function PushedMs(task: seq<Slot>): nat {
    if task == [] then 0
    else PushedMs(task[..|task| - 1]) + (if task[|task| - 1].Voice? then task[|task| - 1].ms else 0)
  }

  function PadMs(task: seq<Slot>): nat {
    if task == [] then 0
    else PadMs(task[..|task| - 1]) + (if task[|task| - 1].Pad? then task[|task| - 1].ms else 0)
  }

  // The gap list the writer builds for it.
  function GapsOf(task: seq<Slot>): seq<Gap> {
    if task == [] then []
    else
      var front := task[..|task| - 1];
      GapsOf(front) + (if task[|task| - 1].Pad? then [Gap(ServiceMs(front), task[|task| - 1].ms)] else [])
  }

  lemma {:induction false} Lengths(task: seq<Slot>)
    ensures ServiceMs(task) == PushedMs(task) + PadMs(task)
  {
    if task != [] {
      Lengths(task[..|task| - 1]);
    }
  }

  // ---- the gap list --------------------------------------------------------------------------------

  // Gaps in order, none overlapping, from lo to hi. Adjacent gaps are allowed.
  ghost predicate Ordered(gaps: seq<Gap>, lo: int, hi: int)
    decreases |gaps|
  {
    if gaps == [] then lo <= hi
    else lo <= gaps[0].at && 0 <= gaps[0].ms && Ordered(gaps[1..], gaps[0].at + gaps[0].ms, hi)
  }

  function Total(gaps: seq<Gap>): int
    decreases |gaps|
  {
    if gaps == [] then 0 else gaps[0].ms + Total(gaps[1..])
  }

  lemma {:induction false} OrderedSnoc(gaps: seq<Gap>, g: Gap, lo: int, hi: int, hi': int)
    requires Ordered(gaps, lo, hi) && hi <= g.at && 0 <= g.ms && g.at + g.ms <= hi'
    ensures Ordered(gaps + [g], lo, hi') && Total(gaps + [g]) == Total(gaps) + g.ms
    decreases |gaps|
  {
    if gaps == [] {
      assert (gaps + [g])[1..] == [];
    } else {
      assert (gaps + [g])[1..] == gaps[1..] + [g];
      OrderedSnoc(gaps[1..], g, gaps[0].at + gaps[0].ms, hi, hi');
    }
  }

  lemma {:induction false} OrderedWiden(gaps: seq<Gap>, lo: int, hi: int, hi': int)
    requires Ordered(gaps, lo, hi) && hi <= hi'
    ensures Ordered(gaps, lo, hi')
    decreases |gaps|
  {
    if gaps != [] {
      OrderedWiden(gaps[1..], gaps[0].at + gaps[0].ms, hi, hi');
    }
  }

  // Whatever the writer sends, its gap list is ordered and adds up.
  lemma {:induction false} GapsAreOrdered(task: seq<Slot>)
    ensures Ordered(GapsOf(task), 0, ServiceMs(task)) && Total(GapsOf(task)) == PadMs(task)
  {
    if task != [] {
      var front, last := task[..|task| - 1], task[|task| - 1];
      GapsAreOrdered(front);
      if last.Pad? {
        OrderedSnoc(GapsOf(front), Gap(ServiceMs(front), last.ms), 0, ServiceMs(front), ServiceMs(task));
      } else {
        assert GapsOf(task) == GapsOf(front);
        OrderedWiden(GapsOf(front), 0, ServiceMs(front), ServiceMs(task));
      }
    }
  }

  // ---- monotone, 1-Lipschitz, bounded -----------------------------------------------------------------

  lemma {:induction false} UnpadFromMoves(gaps: seq<Gap>, shift: int, a: int, b: int, lo: int, hi: int)
    requires Ordered(gaps, lo, hi) && a <= b
    ensures 0 <= UnpadFrom(gaps, shift, b) - UnpadFrom(gaps, shift, a) <= b - a
    decreases |gaps|
  {
    if gaps != [] && gaps[0].at + gaps[0].ms <= b {
      UnpadFromFloor(gaps[1..], shift + gaps[0].ms, b, gaps[0].at + gaps[0].ms, hi);
      if gaps[0].at < a && gaps[0].at + gaps[0].ms <= a {
        UnpadFromMoves(gaps[1..], shift + gaps[0].ms, a, b, gaps[0].at + gaps[0].ms, hi);
      }
    }
  }

  // Past lo, the result lies between lo less the shift and the offset less it.
  lemma {:induction false} UnpadFromFloor(gaps: seq<Gap>, shift: int, ms: int, lo: int, hi: int)
    requires Ordered(gaps, lo, hi) && lo <= ms
    ensures lo - shift <= UnpadFrom(gaps, shift, ms) <= ms - shift
    decreases |gaps|
  {
    if gaps != [] && gaps[0].at + gaps[0].ms <= ms {
      UnpadFromFloor(gaps[1..], shift + gaps[0].ms, ms, gaps[0].at + gaps[0].ms, hi);
    }
  }

  lemma {:induction false} UnpadAtEnd(gaps: seq<Gap>, shift: int, lo: int, hi: int)
    requires Ordered(gaps, lo, hi)
    ensures UnpadFrom(gaps, shift, hi) == hi - shift - Total(gaps)
    decreases |gaps|
  {
    if gaps != [] {
      OrderedBounds(gaps, lo, hi);
      OrderedBounds(gaps[1..], gaps[0].at + gaps[0].ms, hi);
      if hi <= gaps[0].at {
        AllZero(gaps, lo, hi);
      } else {
        UnpadAtEnd(gaps[1..], shift + gaps[0].ms, gaps[0].at + gaps[0].ms, hi);
      }
    }
  }

  lemma {:induction false} OrderedBounds(gaps: seq<Gap>, lo: int, hi: int)
    requires Ordered(gaps, lo, hi)
    ensures lo <= hi && 0 <= Total(gaps) <= hi - lo
    decreases |gaps|
  {
    if gaps != [] {
      OrderedBounds(gaps[1..], gaps[0].at + gaps[0].ms, hi);
    }
  }

  lemma AllZero(gaps: seq<Gap>, lo: int, hi: int)
    requires Ordered(gaps, lo, hi) && gaps != [] && hi <= gaps[0].at
    ensures Total(gaps) == 0
  {
    OrderedBounds(gaps, gaps[0].at, hi);
  }

  // For every task the writer can build: unpad is monotone, never stretches an
  // interval, and maps a recognition task onto the pushed audio.
  lemma UnpadIsMonotone(task: seq<Slot>, a: int, b: int)
    requires a <= b
    ensures 0 <= Unpadded(GapsOf(task), b) - Unpadded(GapsOf(task), a) <= b - a
    ensures 0 <= a && b <= ServiceMs(task) ==>
              0 <= Unpadded(GapsOf(task), a) <= Unpadded(GapsOf(task), b) <= PushedMs(task)
  {
    var gaps := GapsOf(task);
    GapsAreOrdered(task);
    UnpadFromMoves(gaps, 0, a, b, 0, ServiceMs(task));
    if 0 <= a && b <= ServiceMs(task) {
      UnpadFromFloor(gaps, 0, a, 0, ServiceMs(task));
      UnpadFromMoves(gaps, 0, b, ServiceMs(task), 0, ServiceMs(task));
      UnpadAtEnd(gaps, 0, 0, ServiceMs(task));
      Lengths(task);
    }
  }

  // A task starts where its audio starts.
  lemma UnpadZero(task: seq<Slot>)
    ensures Unpadded(GapsOf(task), 0) == 0
  {
    GapsAreOrdered(task);
    UnpadFromFloor(GapsOf(task), 0, 0, 0, ServiceMs(task));
  }

  // ---- left inverse ------------------------------------------------------------------------------------

  // Later gaps do not disturb earlier offsets.
  lemma {:induction false} UnpadIgnoresLater(gaps: seq<Gap>, more: seq<Gap>, shift: int, ms: int, lo: int, hi: int)
    requires Ordered(gaps, lo, hi) && ms <= hi && (more != [] ==> hi <= more[0].at)
    ensures UnpadFrom(gaps + more, shift, ms) == UnpadFrom(gaps, shift, ms)
    decreases |gaps|
  {
    if gaps == [] {
      assert gaps + more == more;
    } else {
      assert (gaps + more)[1..] == gaps[1..] + more;
      UnpadIgnoresLater(gaps[1..], more, shift + gaps[0].ms, ms, gaps[0].at + gaps[0].ms, hi);
    }
  }

  lemma {:induction false} UnpadInsideLast(gaps: seq<Gap>, g: Gap, shift: int, ms: int, lo: int)
    requires Ordered(gaps, lo, g.at) && g.at <= ms <= g.at + g.ms
    ensures UnpadFrom(gaps + [g], shift, ms) == g.at - shift - Total(gaps)
    decreases |gaps|
  {
    if gaps == [] {
      assert gaps + [g] == [g] && [g][1..] == [];
    } else {
      assert (gaps + [g])[1..] == gaps[1..] + [g];
      OrderedBounds(gaps[1..], gaps[0].at + gaps[0].ms, g.at);
      if ms <= gaps[0].at {
        AllZero(gaps, lo, g.at);
      } else {
        UnpadInsideLast(gaps[1..], g, shift + gaps[0].ms, ms, gaps[0].at + gaps[0].ms);
      }
    }
  }

  lemma {:induction false} UnpadPastEnd(gaps: seq<Gap>, shift: int, ms: int, lo: int, hi: int)
    requires Ordered(gaps, lo, hi) && hi <= ms
    ensures UnpadFrom(gaps, shift, ms) == ms - shift - Total(gaps)
    decreases |gaps|
  {
    if gaps != [] {
      OrderedBounds(gaps, lo, hi);
      OrderedBounds(gaps[1..], gaps[0].at + gaps[0].ms, hi);
      if ms <= gaps[0].at {
        AllZero(gaps, lo, hi);
      } else {
        UnpadPastEnd(gaps[1..], shift + gaps[0].ms, ms, gaps[0].at + gaps[0].ms, hi);
      }
    }
  }

  // The gaps of a task start with those of any of its prefixes; the rest begin
  // no earlier than the prefix ends.
  lemma {:induction false} LaterGaps(task: seq<Slot>, n: nat)
    requires n <= |task|
    ensures GapsOf(task[..n]) <= GapsOf(task)
    ensures forall i :: |GapsOf(task[..n])| <= i < |GapsOf(task)| ==> ServiceMs(task[..n]) <= GapsOf(task)[i].at
    ensures ServiceMs(task[..n]) <= ServiceMs(task)
    decreases |task|
  {
    if n == |task| {
      assert task[..n] == task;
    } else {
      var front := task[..|task| - 1];
      LaterGaps(front, n);
      assert front[..n] == task[..n];
    }
  }

  lemma SlotAdds(task: seq<Slot>, i: nat)
    requires i < |task|
    ensures ServiceMs(task[..i + 1]) == ServiceMs(task[..i]) + task[i].ms
    ensures GapsOf(task[..i + 1])
         == GapsOf(task[..i]) + (if task[i].Pad? then [Gap(ServiceMs(task[..i]), task[i].ms)] else [])
  {
    assert task[..i + 1][..i] == task[..i];
  }

  // Every instant of every frame the service has seen maps back to where it
  // belongs: inside pushed audio to that very instant of the pushed audio,
  // inside keep-alive silence to the point where the silence was inserted.
  lemma UnpadInvertsInsertion(task: seq<Slot>, i: nat, x: nat)
    requires i < |task| && x <= task[i].ms
    ensures Unpadded(GapsOf(task), ServiceMs(task[..i]) + x)
         == PushedMs(task[..i]) + (if task[i].Voice? then x else 0)
  {
    hide GapsOf;
    hide ServiceMs;
    hide UnpadFrom;
    hide Ordered;
    var before, upto := task[..i], task[..i + 1];
    var at := ServiceMs(before);
    SlotAdds(task, i);
    LaterGaps(task, i + 1);
    GapsAreOrdered(before);
    GapsAreOrdered(upto);
    Lengths(before);
    var gaps := GapsOf(task);
    var more := gaps[|GapsOf(upto)|..];
    assert gaps == GapsOf(upto) + more;
    UnpadIgnoresLater(GapsOf(upto), more, 0, at + x, 0, ServiceMs(upto));
    if task[i].Pad? {
      UnpadInsideLast(GapsOf(before), Gap(at, task[i].ms), 0, at + x, 0);
    } else {
      assert GapsOf(upto) == GapsOf(before);
      UnpadPastEnd(GapsOf(before), 0, at + x, 0, at);
    }
  }
}
