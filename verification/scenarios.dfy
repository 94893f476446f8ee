/** Whole runs of the component, from a freshly mounted `App` to a screen,
    pressing only what the screen offers. */
module Scenarios {
  import opened Text
  import opened Catalog
  import opened ExOrcism

  /** Name "Jordan", "Burn It", the ritual runs out: the result screen shows
      the burn method and a quote from the list, after 51 runs of the interval
      callback, with the haptics medium, five light, success. */
  method BurnItRitual(quoteDraw: UnitSample, templateDraw: UnitSample)
    returns (stage: Stage, chosen: Option<DestructionMethod>, quote: string,
             ghost ticks: nat, ghost pulses: seq<Haptic>)
    ensures stage == Destroyed && chosen == Some(Methods[0])
    ensures chosen.value.name == "\U{1F525} Burn It"
    ensures quote in Quotes && quote == RandomQuote(quoteDraw)
    ensures ticks == 51
    ensures pulses == [MediumImpact] + LightPulses(5) + [SuccessNotification]
  {
    var app := new App();
    app.SetExName("Jordan");
    assert !AllWhitespace(app.exName) by { assert !IsWhitespace(app.exName[0]); }
    app.StartRitual(Methods[0]);
    assert app.haptics == [MediumImpact] && app.ticking && app.ritualProgress == 0;
    app.RunInterval();
    assert app.completing && app.selectedMethod == Some(Methods[0]);
    app.FinishRitual(quoteDraw, templateDraw);
    stage, chosen, quote, ticks, pulses := app.stage, app.selectedMethod, app.quote, app.tickCount, app.haptics;
  }

  /** A name of three spaces: pressing a method starts nothing. */
  method WhitespaceName(m: DestructionMethod) returns (stage: Stage, chosen: Option<DestructionMethod>,
                                                        ticking: bool)
    ensures stage == Input && chosen == None && !ticking
  {
    var app := new App();
    app.SetExName("   ");
    app.StartRitual(m);
    stage, chosen, ticking := app.stage, app.selectedMethod, app.ticking;
  }

  /** Reset with progress at 40: the interval is gone and no completion is
      under way, so none can arrive later; progress is back to 0. */
  method ResetMidRitual(m: DestructionMethod) returns (progress: int, ticking: bool, completing: bool,
                                                       stage: Stage)
    ensures progress == 0 && !ticking && !completing && stage == Input
  {
    var app := new App();
    app.SetExName("Jordan");
    assert !AllWhitespace(app.exName) by { assert !IsWhitespace(app.exName[0]); }
    app.StartRitual(m);
    var n := 0;
    while n < 20
      invariant 0 <= n <= 20
      invariant app.Valid() && app.ticking && !app.completing
      invariant app.ritualProgress == 2 * n
    {
      var fired := app.Tick();
      n := n + 1;
    }
    assert app.ritualProgress == 40;
    app.Reset();
    progress, ticking, completing, stage := app.ritualProgress, app.ticking, app.completing, app.stage;
  }

  /** After a ritual, "Get Petty Affirmation" and then "Another One": each draw
      is one of the six affirmations, and the name, method and quote stay. */
  method TwoAffirmations(draw1: UnitSample, draw2: UnitSample, quoteDraw: UnitSample,
                         templateDraw: UnitSample)
    returns (first: string, second: string, stage: Stage, name: string,
             chosen: Option<DestructionMethod>, quote: string)
    ensures first == RandomAffirmation(draw1) && second == RandomAffirmation(draw2)
    ensures first in Affirmations && second in Affirmations
    ensures stage == Affirmation && name == "Jordan" && chosen == Some(Methods[4])
    ensures quote == RandomQuote(quoteDraw)
  {
    var app := new App();
    app.SetExName("Jordan");
    assert !AllWhitespace(app.exName) by { assert !IsWhitespace(app.exName[0]); }
    app.StartRitual(Methods[4]);
    assert app.ticking && app.ritualProgress == 0;
    app.RunInterval();
    assert app.completing && app.exName == "Jordan" && app.selectedMethod == Some(Methods[4]);
    app.FinishRitual(quoteDraw, templateDraw);
    app.GetPettyAffirmation(draw1);
    first := app.affirmation;
    app.GetPettyAffirmation(draw2);
    second := app.affirmation;
    stage, name, chosen, quote := app.stage, app.exName, app.selectedMethod, app.quote;
  }
}
