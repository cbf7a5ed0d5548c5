/** The live panel shown during a conversation: an estimate of the cost so far,
    the elapsed time as `MM:SS`, and the audio and text token totals. Its price
    table is its own and differs from the one used when a session is saved. */
module CostTracker {
  import opened Common
  import opened Text
  import SessionStore

  const RealtimePreview := "gpt-4o-realtime-preview"
  const MiniRealtimePreview := "gpt-4o-mini-realtime-preview"

  /** Dollars per million tokens, for input and for output. */
  datatype Price = Price(input: real, output: real)

  /** The audio price table: an entry per model it knows. */
  function AudioPriceEntry(model: string): Option<Price> {
    if model == RealtimePreview then Some(Price(40.0, 80.0))
    else if model == MiniRealtimePreview then Some(Price(10.0, 20.0))
    else None
  }

  /** The selected model's audio entry, or the `gpt-4o-realtime-preview` one. */
  function AudioPrice(model: string): (p: Price)
    ensures AudioPriceEntry(model).Some? ==> p == AudioPriceEntry(model).value
    ensures AudioPriceEntry(model).None? ==> p == AudioPriceEntry(RealtimePreview).value
  {
    match AudioPriceEntry(model)
    case Some(p) => p
    case None => Price(40.0, 80.0)
  }

  /** Text prices: the mini model's, or one price for every other model. */
  function TextPrice(model: string): Price {
    if model == MiniRealtimePreview then Price(0.6, 2.4) else Price(5.0, 20.0)
  }

  function PerMillion(tokens: int, dollarsPerMillion: real): real {
    tokens as real / 1000000.0 * dollarsPerMillion
  }

  /** The unrounded estimate in dollars. */
  function EstimateCost(u: TokenUsage, model: string): real {
    var a, t := AudioPrice(model), TextPrice(model);
    PerMillion(u.inputAudio, a.input) + PerMillion(u.outputAudio, a.output)
    + PerMillion(u.inputText, t.input) + PerMillion(u.outputText, t.output)
  }

  /** Only the two listed models have their own audio prices; any other name,
      including the empty one, is charged as `gpt-4o-realtime-preview`. */
  lemma AudioPriceFallback(model: string)
    ensures model != MiniRealtimePreview ==> AudioPrice(model) == Price(40.0, 80.0)
    ensures model == MiniRealtimePreview ==> AudioPrice(model) == Price(10.0, 20.0)
  {
  }

  /** The mini model is cheaper per token than every other model, in every category. */
  lemma MiniIsCheaper(model: string)
    ensures var a, t := AudioPrice(model), TextPrice(model);
      var am, tm := AudioPrice(MiniRealtimePreview), TextPrice(MiniRealtimePreview);
      am.input <= a.input && am.output <= a.output && tm.input <= t.input && tm.output <= t.output
  {
  }

  /** No tokens, no cost. */
  lemma EstimateOfNothing(model: string)
    ensures EstimateCost(ZeroUsage, model) == 0.0
  {
  }

  /** More tokens never make the estimate smaller. */
  lemma EstimateMonotone(u: TokenUsage, v: TokenUsage, model: string)
    requires UsageLe(u, v)
    ensures EstimateCost(u, model) <= EstimateCost(v, model)
  {
    var a, t := AudioPrice(model), TextPrice(model);
    PerMillionMonotone(u.inputAudio, v.inputAudio, a.input);
    PerMillionMonotone(u.outputAudio, v.outputAudio, a.output);
    PerMillionMonotone(u.inputText, v.inputText, t.input);
    PerMillionMonotone(u.outputText, v.outputText, t.output);
  }

  lemma PerMillionMonotone(x: int, y: int, price: real)
    requires x <= y && price >= 0.0
    ensures PerMillion(x, price) <= PerMillion(y, price)
  {
    var d := (y - x) as real / 1000000.0;
    assert y as real / 1000000.0 == x as real / 1000000.0 + d;
    assert d * price >= 0.0;
  }

  /** The estimate is linear: a usage that is the sum of two costs the sum. */
  lemma EstimateAdds(u: TokenUsage, v: TokenUsage, model: string)
    ensures EstimateCost(Sum(u, v), model) == EstimateCost(u, model) + EstimateCost(v, model)
  {
    var a, t := AudioPrice(model), TextPrice(model);
    PerMillionAdds(u.inputAudio, v.inputAudio, a.input);
    PerMillionAdds(u.outputAudio, v.outputAudio, a.output);
    PerMillionAdds(u.inputText, v.inputText, t.input);
    PerMillionAdds(u.outputText, v.outputText, t.output);
  }

  function Sum(u: TokenUsage, v: TokenUsage): TokenUsage {
    TokenUsage(u.inputAudio + v.inputAudio, u.outputAudio + v.outputAudio,
               u.inputText + v.inputText, u.outputText + v.outputText)
  }

  lemma PerMillionAdds(x: int, y: int, price: real)
    ensures PerMillion(x + y, price) == PerMillion(x, price) + PerMillion(y, price)
  {
    assert (x + y) as real / 1000000.0 == x as real / 1000000.0 + y as real / 1000000.0;
  }

  /** One million input audio tokens on the default model: the live panel shows
      40 dollars, while the saved session is charged 100 dollars (10000 cents). */
  lemma LiveAndSavedPricesDiffer()
    ensures var u := TokenUsage(1000000, 0, 0, 0);
      EstimateCost(u, RealtimePreview) == 40.0 && SessionStore.CalculateSessionCost(u) == 10000
  {
    var u := TokenUsage(1000000, 0, 0, 0);
    assert SessionStore.CostNumerator(u) == 200000000;
    assert (200000000 + 10000) / 20000 == 10000;
  }

  // ---------------------------------------------------------------------------
  // Elapsed time

  /** `Math.floor((now - start) / 1000)`: whole seconds between two millisecond clocks. */
  function ElapsedSeconds(now: int, start: int): int {
    (now - start) / 1000
  }

  /** The `MM:SS` label: minutes and JavaScript's `elapsed % 60`, each padded to two characters. */
  function FormatElapsed(e: int): string {
    PadStart2(IntToString(e / 60)) + ":" + PadStart2(IntToString(JsRem(e, 60)))
  }

  /** A non-negative elapsed time prints as digits, a colon and exactly two
      digits, and the two numbers read back give minutes and seconds again. */
  lemma FormatElapsedRoundTrip(e: int)
    requires e >= 0
    ensures var r := FormatElapsed(e);
      && |r| >= 5 && r[|r| - 3] == ':'
      && AllDigits(r[..|r| - 3]) && AllDigits(r[|r| - 2..])
      && DigitsValue(r[|r| - 2..]) < 60
      && DigitsValue(r[..|r| - 3]) * 60 + DigitsValue(r[|r| - 2..]) == e
  {
    var mm, ss := PadStart2(NatToString(e / 60)), PadStart2(NatToString(e % 60));
    PadStart2Value(e / 60);
    PadStart2Value(e % 60);
    assert |NatToString(e % 60)| <= 2;
    var r := mm + ":" + ss;
    assert r == FormatElapsed(e);
    assert r[..|r| - 3] == mm;
    assert r[|r| - 2..] == ss;
  }

  /** Under a minute the label starts with `00:`. */
  lemma UnderAMinute(e: int)
    requires 0 <= e < 60
    ensures FormatElapsed(e)[..3] == "00:"
  {
  }

  // ---------------------------------------------------------------------------
  // The component

  /** What the panel shows when it renders. */
  datatype View = View(elapsed: string, cost: real, audioTokens: int, textTokens: int)

  /** The panel's state: the two `useState` values and the running interval,
      recorded as the start time it was created for. */
  class Panel {
    var elapsedText: string
    var currentCost: real
    var ticking: Option<int>

    constructor ()
      ensures elapsedText == "00:00" && currentCost == 0.0 && ticking.None?
    {
      elapsedText, currentCost, ticking := "00:00", 0.0, None;
    }

    /** The cost effect, run when the usage or the model changes. */
    method RecomputeCost(u: TokenUsage, model: string)
      modifies this`currentCost
      ensures currentCost == EstimateCost(u, model)
    {
      currentCost := EstimateCost(u, model);
    }

    /** The elapsed-time effect, run when the connection flag or the start time
        changes: the previous interval is cleared; without a connection or a
        start time the label is reset, otherwise a new interval starts. */
    method RestartClock(connected: bool, start: Option<int>)
      modifies this`elapsedText, this`ticking
      ensures !connected || !TruthyNumber(start) ==> elapsedText == "00:00" && ticking.None?
      ensures connected && TruthyNumber(start) ==> elapsedText == old(elapsedText) && ticking == start
    {
      ticking := None;
      if !connected || !TruthyNumber(start) {
        elapsedText := "00:00";
        return;
      }
      ticking := start;
    }

    /** One tick of the interval at clock reading `now`. */
    method Tick(now: int)
      requires ticking.Some?
      modifies this`elapsedText
      ensures elapsedText == FormatElapsed(ElapsedSeconds(now, ticking.value))
    {
      elapsedText := FormatElapsed(ElapsedSeconds(now, ticking.value));
    }

    /** Rendering: nothing while disconnected. */
    function Render(connected: bool, u: TokenUsage): (v: Option<View>)
      reads this
      ensures v.None? <==> !connected
      ensures v.Some? ==> v.value.elapsed == elapsedText && v.value.cost == currentCost
      ensures v.Some? ==> (v.value.audioTokens, v.value.textTokens) == Totals(u)
    {
      if !connected then None
      else Some(View(elapsedText, currentCost, Totals(u).0, Totals(u).1))
    }
  }
}
