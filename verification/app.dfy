/** The state of the `App` component (App.js:127-134) and the transitions that
    change it: `startRitual`, the tick of the progress interval, the callback
    that ends `completeRitual`, `getPettyAffirmation` and `reset`. */
module ExOrcism {
  import opened Text
  import opened Catalog
  import Progress

  /** Which of the four screens is showing. */
  datatype Stage = Input | Ritual | Destroyed | Affirmation

  /** The device feedback the component asks for: an impact of light or medium
      strength, or a success notification. */
  datatype Haptic = LightImpact | MediumImpact | SuccessNotification

  datatype Option<T> = None | Some(value: T)

  /** `n` light impacts in a row. */
  function LightPulses(n: nat): (hs: seq<Haptic>)
    ensures |hs| == n && forall i :: 0 <= i < n ==> hs[i] == LightImpact
  {
    if n == 0 then [] else LightPulses(n - 1) + [LightImpact]
  }

  /** The haptic requests one tick of the interval makes: a light impact when
      it pulses, then the success notification when it fires the completion. */
  function TickHaptics(t: Progress.TickOutcome): (hs: seq<Haptic>)
    ensures |hs| == (if t.pulse then 1 else 0) + (if t.fires then 1 else 0)
    ensures t.pulse ==> hs[0] == LightImpact
    ensures t.fires ==> hs[|hs| - 1] == SuccessNotification
  {
    (if t.pulse then [LightImpact] else []) + (if t.fires then [SuccessNotification] else [])
  }

  /** The haptic requests of the first `n` ticks of a ritual started at 0. */
  function RitualHaptics(n: nat): seq<Haptic>
  {
    if n == 0 then [] else RitualHaptics(n - 1) + TickHaptics(Progress.TickStep(Progress.Step * (n - 1)))
  }

  /** Up to the 50th tick a ritual asks only for light impacts, one every ten
      ticks from the first. */
  lemma {:induction false} RitualHapticsLight(n: nat)
    requires n <= 50
    ensures RitualHaptics(n) == LightPulses((n + 9) / 10)
  {
    if n > 0 {
      var k := n - 1;
      RitualHapticsLight(k);
      Progress.RitualTick(k);
      var c := (k + 9) / 10;
      if k % 10 == 0 {
        assert TickHaptics(Progress.TickStep(Progress.Step * k)) == [LightImpact];
        assert (n + 9) / 10 == c + 1;
      } else {
        assert TickHaptics(Progress.TickStep(Progress.Step * k)) == [];
        assert (n + 9) / 10 == c;
      }
    }
  }

  /** A whole ritual of 51 ticks asks for five light impacts and then the
      success notification. */
  lemma RitualHapticsWhole()
    ensures RitualHaptics(51) == LightPulses(5) + [SuccessNotification]
  {
    RitualHapticsLight(50);
    var t := Progress.TickStep(Progress.Step * 50);
    assert t.fires && !t.pulse;
    assert TickHaptics(t) == [SuccessNotification];
  }

  class App {
    var stage: Stage
    var exName: string
    var selectedMethod: Option<DestructionMethod>
    var quote: string
    var affirmation: string
    var ritualProgress: int
    var isSharing: bool
    var cardTemplate: CardTemplate
    /** The progress interval is scheduled. */
    var ticking: bool
    /** `completeRitual` has begun; the callback that ends its fade-out is still to run. */
    var completing: bool
    /** Every haptic request made so far, oldest first. */
    ghost var haptics: seq<Haptic>
    /** How many times the interval callback has run. */
    ghost var tickCount: nat

    /** What holds in every state, whatever order the operations are called in:
        progress is an even percentage, the interval only exists on the ritual
        screen, and the share card shows one of the templates. */
    ghost predicate Valid()
      reads this
    {
      && Progress.InRange(ritualProgress)
      && (ticking ==> stage == Ritual)
      && cardTemplate in Templates
    }

    /** What holds in every state the screen lets a user reach, where an
        operation is only called when its button is showing: each stage has the
        data it displays, a ritual has exactly one of the interval and the
        fade-out in flight, and nothing is left over from an earlier ritual. */
    ghost predicate Consistent()
      reads this
    {
      && Valid()
      && (selectedMethod.Some? ==> selectedMethod.value in Methods)
      && (stage == Input ==>
            && selectedMethod.None? && quote == "" && affirmation == ""
            && ritualProgress == 0 && !ticking && !completing)
      && (stage == Ritual ==>
            && selectedMethod.Some? && quote == "" && affirmation == ""
            && ticking != completing && (completing ==> ritualProgress == Progress.Full))
      && (stage == Destroyed || stage == Affirmation ==>
            selectedMethod.Some? && quote in Quotes && !completing)
      && (stage == Affirmation ==> affirmation in Affirmations)
    }

    /** `!exName.trim()`: the name trims to the empty string, which happens
        exactly when it consists of whitespace only. */
    predicate NameBlank()
      reads this
      ensures NameBlank() <==> AllWhitespace(exName)
    {
      Trim(exName) == []
    }

    /** The method buttons, each of which calls `startRitual`, are on screen
        only on the name screen and only once the name trims to something. */
    predicate OffersMethod(m: DestructionMethod)
      reads this
    {
      stage == Input && !NameBlank() && m in Methods
    }

    /** The affirmation and reset buttons are on screen on the result screen
        (which renders only when a method is selected) and on the affirmation screen. */
    predicate OffersResultActions()
      reads this
    {
      (stage == Destroyed && selectedMethod.Some?) || stage == Affirmation
    }

    /** The shake loop runs on the ritual screen once progress passes 50. */
    predicate Shaking()
      reads this
    {
      stage == Ritual && ritualProgress > 50
    }

    /** The initial values of the component's state. */
    constructor ()
      ensures Consistent()
      ensures stage == Input && exName == "" && selectedMethod == None
      ensures quote == "" && affirmation == "" && ritualProgress == 0
      ensures !isSharing && cardTemplate == Templates[0]
      ensures !ticking && !completing && haptics == [] && tickCount == 0
    {
      stage := Input;
      exName := "";
      selectedMethod := None;
      quote := "";
      affirmation := "";
      ritualProgress := 0;
      isSharing := false;
      cardTemplate := Templates[0];
      ticking := false;
      completing := false;
      haptics := [];
      tickCount := 0;
    }

    /** Text entry into the name field. */
    method SetExName(text: string)
      requires Valid()
      modifies this
      ensures Valid()
      ensures exName == text
      ensures stage == old(stage) && selectedMethod == old(selectedMethod)
      ensures quote == old(quote) && affirmation == old(affirmation)
      ensures ritualProgress == old(ritualProgress) && isSharing == old(isSharing)
      ensures cardTemplate == old(cardTemplate) && ticking == old(ticking)
      ensures completing == old(completing) && haptics == old(haptics)
      ensures tickCount == old(tickCount)
      ensures old(Consistent()) ==> Consistent()
    {
      exName := text;
    }

    /** `startRitual(method)`: nothing at all happens while the name trims to
        empty. Otherwise a medium impact, the method is stored, the ritual
        screen shows with progress 0, and on entering that screen the progress
        interval is scheduled. */
    method StartRitual(m: DestructionMethod)
      requires Valid()
      modifies this
      ensures Valid()
      ensures old(NameBlank()) ==> unchanged(this)
      ensures !old(NameBlank()) ==>
        && selectedMethod == Some(m) && stage == Ritual && ritualProgress == 0
        && ticking == (old(stage) != Ritual || old(ticking))
        && haptics == old(haptics) + [MediumImpact]
        && exName == old(exName) && quote == old(quote) && affirmation == old(affirmation)
        && cardTemplate == old(cardTemplate) && isSharing == old(isSharing)
        && completing == old(completing) && tickCount == old(tickCount)
      ensures old(Consistent()) && old(OffersMethod(m)) ==> Consistent() && ticking
    {
      if NameBlank() {
        return;
      }
      haptics := haptics + [MediumImpact];
      selectedMethod := Some(m);
      if stage != Ritual {
        ticking := true;
      }
      stage := Ritual;
      ritualProgress := 0;
    }

    /** One run of the interval callback. At 100 or more it clears the
        interval, starts `completeRitual` (whose first act is the success
        notification) and keeps 100; otherwise it adds 2, with a light impact
        when the value it found was a multiple of 20. */
    method Tick() returns (fired: bool)
      requires Valid() && ticking
      modifies this`ritualProgress, this`ticking, this`completing, this`haptics, this`tickCount
      ensures Valid()
      ensures ritualProgress == Progress.TickStep(old(ritualProgress)).next
      ensures tickCount == old(tickCount) + 1
      ensures fired == Progress.TickStep(old(ritualProgress)).fires
      ensures ticking == !fired && completing == (old(completing) || fired)
      ensures haptics == old(haptics) + TickHaptics(Progress.TickStep(old(ritualProgress)))
      ensures old(Consistent()) ==> Consistent()
    {
      if ritualProgress >= 100 {
        ticking := false;
        completing := true;
        haptics := haptics + [SuccessNotification];
        ritualProgress := 100;
        fired := true;
      } else {
        if ritualProgress % 20 == 0 {
          haptics := haptics + [LightImpact];
        }
        ritualProgress := ritualProgress + 2;
        fired := false;
      }
      tickCount := tickCount + 1;
    }

    /** The callback that ends `completeRitual`'s fade-out: the result screen,
        with a quote drawn with `quoteDraw` and a share-card template drawn with
        `templateDraw`. Leaving the ritual screen clears any interval. */
    method FinishRitual(quoteDraw: UnitSample, templateDraw: UnitSample)
      requires Valid() && completing
      modifies this
      ensures Valid()
      ensures stage == Destroyed && quote in Quotes && cardTemplate in Templates
      ensures quote == RandomQuote(quoteDraw) && cardTemplate == RandomTemplate(templateDraw)
      ensures !completing && !ticking
      ensures exName == old(exName) && selectedMethod == old(selectedMethod)
      ensures affirmation == old(affirmation) && ritualProgress == old(ritualProgress)
      ensures isSharing == old(isSharing) && haptics == old(haptics)
      ensures tickCount == old(tickCount)
      ensures old(Consistent()) ==> Consistent() && OffersResultActions()
    {
      completing := false;
      ticking := false;
      stage := Destroyed;
      quote := RandomQuote(quoteDraw);
      cardTemplate := RandomTemplate(templateDraw);
    }

    /** `getPettyAffirmation()`: a medium impact, then an affirmation drawn with
        `draw` and the affirmation screen, whichever screen it is called from. */
    method GetPettyAffirmation(draw: UnitSample)
      requires Valid()
      modifies this
      ensures Valid()
      ensures stage == Affirmation && affirmation in Affirmations
      ensures affirmation == RandomAffirmation(draw)
      ensures haptics == old(haptics) + [MediumImpact] && !ticking
      ensures exName == old(exName) && selectedMethod == old(selectedMethod) && quote == old(quote)
      ensures ritualProgress == old(ritualProgress) && cardTemplate == old(cardTemplate)
      ensures isSharing == old(isSharing) && completing == old(completing)
      ensures tickCount == old(tickCount)
      ensures old(Consistent()) && old(OffersResultActions()) ==> Consistent() && OffersResultActions()
    {
      haptics := haptics + [MediumImpact];
      affirmation := RandomAffirmation(draw);
      ticking := false;
      stage := Affirmation;
    }

    /** `reset()`: back to the empty name screen from any screen. The share-card
        template and the sharing flag keep their values, and a fade-out already
        under way is not cancelled. */
    method Reset()
      requires Valid()
      modifies this
      ensures Valid()
      ensures stage == Input && exName == "" && selectedMethod == None
      ensures quote == "" && affirmation == "" && ritualProgress == 0 && !ticking
      ensures cardTemplate == old(cardTemplate) && isSharing == old(isSharing)
      ensures completing == old(completing) && haptics == old(haptics)
      ensures tickCount == old(tickCount)
      ensures old(Consistent()) && old(OffersResultActions()) ==> Consistent()
    {
      stage := Input;
      exName := "";
      selectedMethod := None;
      quote := "";
      affirmation := "";
      ritualProgress := 0;
      ticking := false;
    }

    /** From progress 0, the interval drives the ritual to its end: the
        callback runs exactly 51 times, once per tick of `Progress.Trace(0)`,
        the last run firing the completion and clearing the interval. There are
        five light impacts, none on the completing tick, then the success
        notification. */
    method RunInterval()
      requires Valid() && ticking && ritualProgress == 0
      modifies this`ritualProgress, this`ticking, this`completing, this`haptics, this`tickCount
      ensures Valid()
      ensures tickCount == old(tickCount) + 51
      ensures ritualProgress == Progress.Full && !ticking && completing
      ensures haptics == old(haptics) + LightPulses(5) + [SuccessNotification]
      ensures old(Consistent()) ==> Consistent()
    {
      var ticks := 0;
      var fired := false;
      while !fired
        invariant Valid() && ticks <= 51 && ticking == !fired
        invariant tickCount == old(tickCount) + ticks
        invariant !fired ==> ticks <= 50 && ritualProgress == Progress.Step * ticks
        invariant fired ==> ticks == 51 && ritualProgress == Progress.Full && completing
        invariant haptics == old(haptics) + RitualHaptics(ticks)
        invariant old(Consistent()) ==> Consistent()
        decreases 51 - ticks
      {
        ghost var t := Progress.TickStep(ritualProgress);
        assert RitualHaptics(ticks + 1) == RitualHaptics(ticks) + TickHaptics(t);
        fired := Tick();
        ticks := ticks + 1;
      }
      RitualHapticsWhole();
    }
  }

  /** On the ritual screen, once tick k + 1 of a ritual started at 0 has left
      its value, the screen shakes exactly from the 26th tick (k = 25) on. */
  lemma ShakingFromTick26(app: App, k: nat)
    requires k < |Progress.Trace(0)| && app.stage == Ritual
    requires app.ritualProgress == Progress.Trace(0)[k].next
    ensures app.Shaking() <==> k >= 25
  {
    Progress.RitualRun();
  }

  /** A user who only presses what the screen shows never reaches a dead end:
      on every screen either a button, the interval or the fade-out can move on. */
  lemma NoDeadEnd(app: App)
    requires app.Consistent()
    ensures || app.stage == Input || app.ticking || app.completing
            || app.OffersResultActions()
  {
  }
}
