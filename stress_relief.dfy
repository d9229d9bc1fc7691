/** The Stress Relief Zone (src/StressReliefZone.jsx): a breathing pacer that
    cycles through a four-row phase table one second at a time, and a bubble
    game whose list grows by one bubble per spawn and shrinks on a pop. */
module StressRelief {

  // ---------------------------------------------------------------------
  // Breathing pacer
  // ---------------------------------------------------------------------

  datatype Phase = Phase(name: string, duration: nat)

  /** The `phases` table: name and duration in seconds. */
  const Phases: seq<Phase> := [Phase("Inhale", 4), Phase("Hold", 4), Phase("Exhale", 6), Phase("Hold", 2)]

  /** The effect closure's index `i` and the `timeLeft` state. */
  datatype PacerState = PacerState(index: nat, timeLeft: int)

  /** Where entering breathing mode puts the pacer: index 0 with that phase's duration. */
  const Start: PacerState := PacerState(0, 4)

  /** The index names a phase and the countdown lies within that phase. */
  predicate PacerValid(s: PacerState) {
    s.index < |Phases| && 1 <= s.timeLeft <= Phases[s.index].duration
  }

  /** One tick of the interval: count down, or move to the next phase (wrapping)
      and start its countdown. */
  function Advance(s: PacerState): (t: PacerState)
    requires s.index < |Phases|
    ensures t.index < |Phases|
    ensures PacerValid(s) ==> PacerValid(t)
  {
    if s.timeLeft > 1 then PacerState(s.index, s.timeLeft - 1)
    else
      var j := (s.index + 1) % |Phases|;
      PacerState(j, Phases[j].duration)
  }

  /** The state after `n` ticks. */
  function AdvanceBy(s: PacerState, n: nat): (t: PacerState)
    requires s.index < |Phases|
    ensures t.index < |Phases|
    decreases n
  {
    if n == 0 then s else AdvanceBy(Advance(s), n - 1)
  }

  /** The table has four phases of at least one second each, 16 seconds in all,
      and starts with "Inhale" for four seconds, which `Start` matches. */
  lemma PhaseTable()
    ensures |Phases| == 4 && forall k :: 0 <= k < |Phases| ==> Phases[k].duration >= 1
    ensures Phases[0].duration + Phases[1].duration + Phases[2].duration + Phases[3].duration == 16
    ensures Phases[Start.index] == Phase("Inhale", Start.timeLeft)
  {
  }

  lemma {:induction false} AdvanceByValid(s: PacerState, n: nat)
    requires PacerValid(s)
    ensures PacerValid(AdvanceBy(s, n))
    decreases n
  {
    if n > 0 {
      AdvanceByValid(Advance(s), n - 1);
    }
  }

  lemma {:induction false} AdvanceByLast(s: PacerState, n: nat)
    requires s.index < |Phases|
    ensures AdvanceBy(s, n + 1) == Advance(AdvanceBy(s, n))
    decreases n
  {
    if n > 0 {
      AdvanceByLast(Advance(s), n - 1);
    }
  }

  /** The pacer's position `k` seconds into a cycle started by `Start`. */
  function CycleState(k: nat): (s: PacerState)
    requires k < 16
    ensures PacerValid(s)
  {
    if k < 4 then PacerState(0, 4 - k)
    else if k < 8 then PacerState(1, 8 - k)
    else if k < 14 then PacerState(2, 14 - k)
    else PacerState(3, 16 - k)
  }

  lemma AdvanceCycleState(k: nat)
    requires k < 16
    ensures Advance(CycleState(k)) == CycleState((k + 1) % 16)
  {
  }

  lemma {:induction false} AdvanceByAdd(s: PacerState, a: nat, b: nat)
    requires s.index < |Phases|
    ensures AdvanceBy(s, a + b) == AdvanceBy(AdvanceBy(s, a), b)
    decreases a
  {
    if a > 0 {
      AdvanceByAdd(Advance(s), a - 1, b);
    }
  }

  /** Within the first cycle the pacer is where `CycleState` says. */
  lemma {:induction false} AdvanceWithinCycle(n: nat)
    requires n < 16
    ensures AdvanceBy(Start, n) == CycleState(n)
  {
    if n > 0 {
      AdvanceWithinCycle(n - 1);
      AdvanceByLast(Start, n - 1);
      AdvanceCycleState(n - 1);
    }
  }

  /** Sixteen ticks complete one cycle and bring the pacer back to its start. */
  lemma FullCycle()
    ensures AdvanceBy(Start, 16) == Start
  {
    AdvanceWithinCycle(15);
    AdvanceByLast(Start, 15);
    AdvanceCycleState(15);
  }

  lemma CycleModulo(k: nat)
    ensures (16 + k) % 16 == k % 16
  {
  }

  /** Closed form of the pacer: after `n` ticks from the start it is where the
      16-second cycle puts it, `n` modulo 16 seconds in. */
  lemma {:induction false} AdvanceFromStart(n: nat)
    ensures AdvanceBy(Start, n) == CycleState(n % 16)
    decreases n
  {
    if n < 16 {
      AdvanceWithinCycle(n);
    } else {
      var rest := n - 16;
      FullCycle();
      AdvanceByAdd(Start, 16, rest);
      AdvanceFromStart(rest);
      CycleModulo(rest);
    }
  }

  /** Four ticks after the start the pacer holds for four seconds. */
  lemma FourTicksToHold()
    ensures AdvanceBy(Start, 4) == PacerState(1, 4)
    ensures Phases[AdvanceBy(Start, 4).index].name == "Hold"
  {
    AdvanceFromStart(4);
  }

  /** The pacer is back at the start exactly after a multiple of 16 (4 + 4 + 6 + 2) ticks. */
  lemma ReturnsToStartEvery16(n: nat)
    ensures AdvanceBy(Start, n) == Start <==> n % 16 == 0
  {
    AdvanceFromStart(n);
  }

  /** The two holds share one name, so index 1 and index 3 show the same label. */
  lemma HoldsShareName()
    ensures Phases[1].name == Phases[3].name == "Hold"
    ensures Phases[0].name != Phases[1].name && Phases[2].name != Phases[1].name
  {
  }

  // ---------------------------------------------------------------------
  // Bubbles
  // ---------------------------------------------------------------------

  /** A bubble: an id taken from the clock (so ids may repeat), and a random
      position (percent) and size (pixels). */
  datatype Bubble = Bubble(id: int, x: real, y: real, size: real)

  /** `prev.filter((b) => b.id !== id)`. */
  function Without(bubbles: seq<Bubble>, id: int): (r: seq<Bubble>)
    ensures |r| <= |bubbles|
    ensures forall b :: b in r <==> b in bubbles && b.id != id
  {
    if bubbles == [] then []
    else (if bubbles[0].id != id then [bubbles[0]] else []) + Without(bubbles[1..], id)
  }

  /** Popping keeps the order: filtering a concatenation filters each part. */
  lemma {:induction false} WithoutAppend(a: seq<Bubble>, b: seq<Bubble>, id: int)
    ensures Without(a + b, id) == Without(a, id) + Without(b, id)
  {
    if a == [] {
      assert a + b == b;
    } else {
      assert (a + b)[1..] == a[1..] + b;
      WithoutAppend(a[1..], b, id);
    }
  }

  /** Popping an id no bubble has changes nothing. */
  lemma {:induction false} WithoutAbsent(bubbles: seq<Bubble>, id: int)
    requires forall b :: b in bubbles ==> b.id != id
    ensures Without(bubbles, id) == bubbles
  {
    if bubbles != [] {
      WithoutAbsent(bubbles[1..], id);
    }
  }

  /** Popping the same id twice is popping it once. */
  lemma WithoutIdempotent(bubbles: seq<Bubble>, id: int)
    ensures Without(Without(bubbles, id), id) == Without(bubbles, id)
  {
    WithoutAbsent(Without(bubbles, id), id);
  }

  /** Popping a freshly spawned bubble whose id is new restores the list. */
  lemma PopUndoesSpawn(bubbles: seq<Bubble>, b: Bubble)
    requires forall c :: c in bubbles ==> c.id != b.id
    ensures Without(bubbles + [b], b.id) == bubbles
  {
    WithoutAppend(bubbles, [b], b.id);
    WithoutAbsent(bubbles, b.id);
    assert Without([b], b.id) == [] + Without([], b.id);
  }

  // ---------------------------------------------------------------------
  // The zone
  // ---------------------------------------------------------------------

  /** The activity select: "", "breathing" or "bubbles". */
  datatype Mode = NoActivity | Breathing | Bubbles

  class Zone {
    var mode: Mode
    var bubbles: seq<Bubble>
    /** The `phase` state, the name shown in the circle. */
    var phase: string
    var timeLeft: int
    /** The breathing effect's closure variable `i`. */
    var index: nat

    ghost function Pacer(): PacerState
      reads this
    {
      PacerState(index, timeLeft)
    }

    /** The shown name is the current phase's name and the countdown is in range. */
    ghost predicate Valid()
      reads this
    {
      PacerValid(Pacer()) && phase == Phases[index].name
    }

    constructor ()
      ensures Valid()
      ensures mode == NoActivity && bubbles == [] && phase == "Inhale" && Pacer() == Start
    {
      mode := NoActivity;
      bubbles := [];
      phase := "Inhale";
      timeLeft := 4;
      index := 0;
    }

    /** Choosing an activity. Entering breathing restarts the pacer at "Inhale" with
        four seconds; the bubble list is kept whatever the mode. Re-selecting the
        current mode changes nothing. */
    method SelectMode(m: Mode)
      requires Valid()
      modifies this
      ensures Valid()
      ensures mode == m && bubbles == old(bubbles)
      ensures m != old(mode) && m == Breathing ==> Pacer() == Start && phase == "Inhale"
      ensures m == old(mode) || m != Breathing ==> Pacer() == old(Pacer()) && phase == old(phase)
    {
      if m != mode {
        mode := m;
        if m == Breathing {
          index := 0;
          phase := Phases[index].name;
          timeLeft := Phases[index].duration;
        }
      }
    }

    /** One second of the breathing interval, which only runs in breathing mode. */
    method Tick()
      requires Valid()
      modifies this
      ensures Valid()
      ensures Pacer() == if old(mode) == Breathing then Advance(old(Pacer())) else old(Pacer())
      ensures phase == Phases[index].name
      ensures mode == old(mode) && bubbles == old(bubbles)
    {
      if mode == Breathing {
        if timeLeft > 1 {
          timeLeft := timeLeft - 1;
        } else {
          index := (index + 1) % |Phases|;
          phase := Phases[index].name;
          timeLeft := Phases[index].duration;
        }
      }
    }

    /** One beat of the bubble interval, which only runs in bubbles mode: append one
        bubble. Nothing caps the list. */
    method Spawn(id: int, x: real, y: real, size: real)
      requires Valid()
      modifies this
      ensures Valid()
      ensures bubbles == if old(mode) == Bubbles then old(bubbles) + [Bubble(id, x, y, size)] else old(bubbles)
      ensures mode == old(mode) && Pacer() == old(Pacer()) && phase == old(phase)
    {
      if mode == Bubbles {
        bubbles := bubbles + [Bubble(id, x, y, size)];
      }
    }

    /** `popBubble(id)`: drop every bubble with that id. */
    method Pop(id: int)
      requires Valid()
      modifies this
      ensures Valid()
      ensures bubbles == Without(old(bubbles), id)
      ensures mode == old(mode) && Pacer() == old(Pacer()) && phase == old(phase)
    {
      bubbles := Without(bubbles, id);
    }
  }
}
