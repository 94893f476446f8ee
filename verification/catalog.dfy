/** The fixed content lists of App.js and the uniform draw that picks from them. */
module Catalog {

  /** One entry of the destruction-method list: the button label, the emoji
      shown while the ritual runs, the verb, the phrase printed on the share
      card and the pair of gradient colours. */
  datatype DestructionMethod = DestructionMethod(
    name: string, emoji: string, verb: string, pastTense: string, colors: (string, string))

  /** One share-card layout: an emoji, a header and the line printed under the name. */
  datatype CardTemplate = CardTemplate(emoji: string, header: string, subtext: string)

  const Quotes: seq<string> := [
    "Their loss. Literally. You're amazing.",
    "Plot twist: You're the main character now.",
    "New phone, who dis? (It's your future self, thriving)",
    "They'll regret this during your glow-up montage.",
    "Congratulations on your freedom!",
    "Breaking news: You just became everyone's type.",
    "The trash took itself out. Very eco-friendly.",
    "You're not single. You're romantically self-employed."
  ]

  const Methods: seq<DestructionMethod> := [
    DestructionMethod("\U{1F525} Burn It", "\U{1F525}", "incinerated", "INCINERATED",
                      ("#f97316", "#dc2626")),
    DestructionMethod("\U{1F573}\U{FE0F} Black Hole", "\U{1F300}", "consumed by the void",
                      "CONSUMED BY THE VOID", ("#581c87", "#000000")),
    DestructionMethod("\U{1F680} Launch to Space", "\U{1F680}", "yeeted into orbit",
                      "YEETED INTO ORBIT", ("#2563eb", "#9333ea")),
    DestructionMethod("\U{1F988} Feed to Sharks", "\U{1F988}", "fed to sharks", "FED TO SHARKS",
                      ("#38bdf8", "#1d4ed8")),
    DestructionMethod("\U{26A1} Smite", "\U{26A1}", "smote by divine justice",
                      "SMOTE BY DIVINE JUSTICE", ("#facc15", "#d97706"))
  ]

  const Affirmations: seq<string> := [
    "Their Spotify Wrapped is probably just sad acoustic covers now.",
    "Your revenge body is coming. Or not. You're hot either way.",
    "They're going to see you thriving and choke on their smoothie.",
    "Somewhere, their plants are dying without your nurturing energy.",
    "Their future partners will never match your elite meme game.",
    "You were the plot. They were just a filler episode."
  ]

  const Templates: seq<CardTemplate> := [
    // Celebration / freedom
    CardTemplate("\U{2728}", "OFFICIALLY BANISHED", "is no longer your problem"),
    CardTemplate("\U{1F389}", "FREEDOM UNLOCKED", "has been removed from the narrative"),
    CardTemplate("\U{2B50}", "MAIN CHARACTER STATUS RESTORED", "has exited the chat"),
    // Playful / meme
    CardTemplate("\U{1F6AB}", "BLOCKED BY THE UNIVERSE", "Access Denied"),
    CardTemplate("\U{1F4E4}", "SUCCESSFULLY UNSUBSCRIBED", "'s nonsense - No longer in your inbox"),
    CardTemplate("\U{1F5D1}\U{FE0F}", "RECYCLED", "has been composted into personal growth"),
    // Dramatic / fantasy
    CardTemplate("\U{2694}\U{FE0F}", "BANISHED TO THE SHADOW REALM", "shall not return"),
    CardTemplate("\U{1F30C}", "SENT TO THE VOID", "Status: Forgotten"),
    CardTemplate("\U{1F52E}", "THE SPIRITS HAVE SPOKEN", "has been ex-orcised"),
    // Petty / funny
    CardTemplate("\U{1F44B}", "BYE FOREVER", "It's not me, it's definitely you"),
    CardTemplate("\U{1F485}", "OFFICIALLY OVER IT", "who? Don't know them."),
    CardTemplate("\U{1F9F9}", "CLEANSED", "energy has been removed from your life")
  ]

  /** A value of `Math.random()`: the fraction num / den, which lies in [0, 1). */
  datatype Sample = Sample(num: nat, den: nat)
  type UnitSample = u: Sample | u.num < u.den witness Sample(0, 1)

  /** `Math.floor(u * n)`: the index a uniform draw `u` selects from a list of
      length `n`. It always lies in [0, n). */
  function Pick(u: UnitSample, n: nat): (i: nat)
    requires 0 < n
    ensures i < n
  {
    ScaledBelow(u.num, u.den, n);
    u.num * n / u.den
  }

  /** num < den implies num * n / den < n, for every positive n. */
  lemma ScaledBelow(num: nat, den: nat, n: nat)
    requires num < den && 0 < n
    ensures num * n / den < n
  {
    var q := num * n / den;
    assert q * den <= num * n;
    assert num * n < den * n;
  }

  /** The draw picks index i exactly when u lies in [i / n, (i + 1) / n): each
      of the n entries owns a slice of [0, 1) of width 1 / n, so the pick is
      uniform. */
  lemma PickInterval(u: UnitSample, n: nat, i: nat)
    requires 0 < n
    ensures Pick(u, n) == i <==> i * u.den <= u.num * n < (i + 1) * u.den
  {
    var q := Pick(u, n);
    assert q * u.den <= u.num * n < (q + 1) * u.den;
    if i < q {
      MulMono(i + 1, q, u.den);
    } else if q < i {
      MulMono(q + 1, i, u.den);
    }
  }

  lemma MulMono(a: nat, b: nat, c: nat)
    requires a <= b
    ensures a * c <= b * c
  {
  }

  /** Every index of a list of length n is what the draw i / n picks: no
      entry is unreachable. */
  lemma PickReachesEvery(i: nat, n: nat)
    requires i < n
    ensures Pick(Sample(i, n), n) == i
  {
    PickInterval(Sample(i, n), n, i);
  }

  /** `getRandomTemplate()`: one share-card template, drawn with `u`. */
  function RandomTemplate(u: UnitSample): (t: CardTemplate)
    ensures t in Templates
  {
    Templates[Pick(u, |Templates|)]
  }

  /** The quote `completeRitual` draws with `u`. */
  function RandomQuote(u: UnitSample): (q: string)
    ensures q in Quotes
  {
    Quotes[Pick(u, |Quotes|)]
  }

  /** The affirmation `getPettyAffirmation` draws with `u`. */
  function RandomAffirmation(u: UnitSample): (a: string)
    ensures a in Affirmations
  {
    Affirmations[Pick(u, |Affirmations|)]
  }

  /** The method buttons are keyed by name, so the names must be distinct. */
  lemma MethodNamesDistinct()
    ensures forall i, j :: 0 <= i < j < |Methods| ==> Methods[i].name != Methods[j].name
  {
  }
}
