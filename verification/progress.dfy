/** The ritual progress counter: what one tick of the 50 ms interval does to
    `ritualProgress` (App.js:203-214), and the whole run of ticks one ritual goes through. */
module Progress {

  /** Progress is a percentage. */
  const Full := 100
  /** Each tick adds this much. */
  const Step := 2
  /** A light haptic accompanies every tick whose starting value is a multiple of this. */
  const PulseEvery := 20

  /** What one tick does, from the value `prev` it finds: the value it leaves,
      whether it emits a light haptic pulse, and whether it fires the completion
      (clearing the interval and calling `completeRitual`). */
  datatype TickOutcome = TickOutcome(next: int, pulse: bool, fires: bool)

  /** The values progress takes during a ritual: even percentages. */
  predicate InRange(p: int) {
    0 <= p <= Full && p % Step == 0
  }

  /** The state updater of the interval callback. JavaScript's `%` truncates
      where Dafny's is Euclidean, but the two agree on whether the remainder is 0. */
  function TickStep(prev: int): (t: TickOutcome)
    ensures InRange(prev) ==> InRange(t.next) && prev <= t.next
    ensures t.fires <==> Full <= prev
    ensures t.pulse ==> !t.fires && prev % PulseEvery == 0
  {
    if prev >= Full then TickOutcome(Full, false, true)
    else TickOutcome(prev + Step, prev % PulseEvery == 0, false)
  }

  /** The outcomes of the ticks the interval delivers when started at progress
      `p`, one per tick, up to and including the tick that fires the completion
      (after which the interval is cleared and no tick follows). */
  function Trace(p: int): (ts: seq<TickOutcome>)
    decreases if p < Full then Full - p else 0
    ensures 1 <= |ts| && ts[0] == TickStep(p) && ts[|ts| - 1].fires
  {
    if p >= Full then [TickStep(p)] else [TickStep(p)] + Trace(p + Step)
  }

  /** From an even starting value, the interval ticks (100 - p) / 2 + 1 times;
      tick i starts from p + 2 * i; only the last tick fires. */
  lemma {:induction false} TraceShape(p: int)
    requires InRange(p)
    decreases Full - p
    ensures |Trace(p)| == (Full - p) / Step + 1
    ensures forall i :: 0 <= i < |Trace(p)| ==> Trace(p)[i] == TickStep(p + Step * i)
    ensures forall i :: 0 <= i < |Trace(p)| ==> (Trace(p)[i].fires <==> i == |Trace(p)| - 1)
  {
    if p < Full {
      TraceShape(p + Step);
      var rest := Trace(p + Step);
      assert Trace(p) == [TickStep(p)] + rest;
      forall i | 1 <= i < |Trace(p)|
        ensures Trace(p)[i] == TickStep(p + Step * i)
      {
        assert Trace(p)[i] == rest[i - 1];
        assert p + Step + Step * (i - 1) == p + Step * i;
      }
    }
  }

  /** One ritual, from progress 0: 50 incrementing ticks reach exactly 100 and
      never pass it, the 51st tick fires the completion, and it is the only one
      that does. Light pulses come on the ticks that start from 0, 20, 40, 60
      and 80, five in all, and none on the completing tick. The shake starts
      with the 26th tick, the first to leave progress above 50. */
  lemma RitualRun()
    ensures |Trace(0)| == 51
    ensures forall i :: 0 <= i < 50 ==> Trace(0)[i].next == Step * (i + 1)
    ensures Trace(0)[50].next == Full
    ensures forall i :: 0 <= i < 51 ==> InRange(Trace(0)[i].next)
    ensures forall i :: 0 <= i < 51 ==> (Trace(0)[i].fires <==> i == 50)
    ensures forall i :: 0 <= i < 51 ==> (Trace(0)[i].pulse <==> Step * i in {0, 20, 40, 60, 80})
    ensures (set i | 0 <= i < 51 && Trace(0)[i].pulse) == {0, 10, 20, 30, 40}
    ensures forall i :: 0 <= i < 51 ==> (Trace(0)[i].next > 50 <==> i >= 25)
  {
    TraceShape(0);
    var t := Trace(0);
    forall i | 0 <= i < 51
      ensures t[i].pulse <==> i in {0, 10, 20, 30, 40}
    {
      assert t[i] == TickStep(Step * i);
    }
    assert forall i :: 0 <= i < 51 ==> (i in {0, 10, 20, 30, 40} <==> Step * i in {0, 20, 40, 60, 80});
    var pulses := set i | 0 <= i < 51 && t[i].pulse;
    forall i | i in {0, 10, 20, 30, 40} ensures i in pulses {
    }
  }

  /** Tick k of a ritual started at 0, for k below 50, adds 2 and pulses
      exactly when k is a multiple of 10. */
  lemma RitualTick(k: nat)
    requires k < 50
    ensures TickStep(Step * k) == TickOutcome(Step * (k + 1), k % 10 == 0, false)
  {
  }
}
