/**
 * The two helpers of `util/extra`: `Swear`, a promise with a cancel switch and a
 * readable state, and `makeGradient`, which fills a text object with a vertical
 * gradient that repeats the colour stops once per line of text.
 */
module Extra {
  import opened JsStrings

  datatype SwearState = Pending | Done | Canceled | Rejected

  /** How the underlying promise has settled; a promise settles at most once. */
  datatype Settlement<T> = Unsettled | Fulfilled(value: T) | RejectedWith(reason: T)

  /**
   * `Swear`: `state` is the readable state, `canceled` the private `_cancel` flag and
   * `promise` the settlement of the promise it wraps.
   */
  class Swear<T> {
    var state: SwearState
    var canceled: bool
    var promise: Settlement<T>

    /** A cancelled swear reads as cancelled. */
    ghost predicate Valid()
      reads this
    {
      canceled ==> state == Canceled
    }

    constructor ()
      ensures Valid() && state == Pending && !canceled && promise == Unsettled
    {
      state := Pending;
      canceled := false;
      promise := Unsettled;
    }

    /** `cancel`, from any state: the flag is set and the state becomes `canceled`. */
    method Cancel()
      modifies this
      ensures Valid() && canceled && state == Canceled && promise == old(promise)
    {
      canceled := true;
      state := Canceled;
    }

    /**
     * `resolve`: ignored once cancelled; otherwise the state becomes `done` (over any
     * earlier settlement) and the promise is fulfilled unless it had settled already.
     */
    method Resolve(data: T)
      requires Valid()
      modifies this
      ensures Valid() && canceled == old(canceled)
      ensures old(canceled) ==> state == old(state) && promise == old(promise)
      ensures !old(canceled) ==> state == Done
      ensures !old(canceled) ==> promise == if old(promise) == Unsettled then Fulfilled(data) else old(promise)
    {
      if canceled {
        return;
      }
      state := Done;
      if promise == Unsettled {
        promise := Fulfilled(data);
      }
    }

    /**
     * `reject`: ignored once cancelled; otherwise the state becomes `rejected` (over any
     * earlier settlement) and the promise is rejected unless it had settled already.
     */
    method Reject(data: T)
      requires Valid()
      modifies this
      ensures Valid() && canceled == old(canceled)
      ensures old(canceled) ==> state == old(state) && promise == old(promise)
      ensures !old(canceled) ==> state == Rejected
      ensures !old(canceled) ==> promise == if old(promise) == Unsettled then RejectedWith(data) else old(promise)
    {
      if canceled {
        return;
      }
      state := Rejected;
      if promise == Unsettled {
        promise := RejectedWith(data);
      }
    }
  }

  /** One later call on a swear: `resolve(value)` when `resolve` holds, else `reject(value)`. */
  datatype SwearCall<T> = SwearCall(resolve: bool, value: T)

  /**
   * `cancel` on any swear, in any state, then any run of `resolve` and `reject` calls:
   * the swear stays canceled and its promise stays as it was when it was canceled.
   */
  method CancelThenCalls<T>(swear: Swear<T>, calls: seq<SwearCall<T>>)
    modifies swear
    ensures swear.Valid() && swear.state == Canceled && swear.canceled
    ensures swear.promise == old(swear.promise)
  {
    swear.Cancel();
    for i := 0 to |calls|
      invariant swear.Valid() && swear.state == Canceled && swear.canceled
      invariant swear.promise == old(swear.promise)
    {
      if calls[i].resolve {
        swear.Resolve(calls[i].value);
      } else {
        swear.Reject(calls[i].value);
      }
    }
  }

  /** A fresh swear, once canceled, stays canceled and unsettled whatever calls follow. */
  method CancelIsAbsorbing<T>(calls: seq<SwearCall<T>>) returns (swear: Swear<T>)
    ensures swear.state == Canceled && swear.canceled && swear.promise == Unsettled
  {
    swear := new Swear<T>();
    CancelThenCalls(swear, calls);
  }

  /** `reject` after `resolve` overwrites the state, while the promise stays fulfilled. */
  method RejectAfterResolve<T>(a: T, b: T) returns (swear: Swear<T>)
    ensures swear.state == Rejected && !swear.canceled && swear.promise == Fulfilled(a)
  {
    swear := new Swear<T>();
    swear.Resolve(a);
    swear.Reject(b);
  }

  /** One option of `makeGradient`: a colour and where it sits in a line, in percent. */
  datatype ColorOption = ColorOption(color: JsString, percent: real)

  datatype ColorStop = ColorStop(offset: real, color: JsString)

  /** `Math.floor(height / font) || 1`: the number of text lines, never zero. */
  function Lines(height: real, font: real): (lines: nat)
    requires height >= 0.0 && font > 0.0
    ensures lines >= 1
    ensures (height / font).Floor >= 1 ==> lines == (height / font).Floor
    ensures (lines - 1) as real * font <= height
  {
    var f := (height / font).Floor;
    if f == 0 then 1 else f
  }

  /** `(1 / lines / 100) * percent + (1 / lines) * index`: a percent scaled into band `index`. */
  function Offset(lines: nat, index: nat, percent: real): real
    requires lines >= 1
  {
    (1.0 / lines as real / 100.0) * percent + (1.0 / lines as real) * index as real
  }

  /** The stops of one band, in option order. */
  function BandStops(lines: nat, index: nat, options: seq<ColorOption>): (band: seq<ColorStop>)
    requires lines >= 1
    ensures |band| == |options|
    ensures forall j :: 0 <= j < |band| ==> band[j].color == options[j].color
  {
    seq(|options|, j requires 0 <= j < |options| =>
      ColorStop(Offset(lines, index, options[j].percent), options[j].color))
  }

  /** The stops of the first `bands` bands, band after band. */
  function StopsOfBands(lines: nat, options: seq<ColorOption>, bands: nat): seq<ColorStop>
    requires lines >= 1
  {
    if bands == 0 then [] else StopsOfBands(lines, options, bands - 1) + BandStops(lines, bands - 1, options)
  }

  /** Every stop `makeGradient` adds, in the order it adds them. */
  function Stops(lines: nat, options: seq<ColorOption>): (stops: seq<ColorStop>)
    requires lines >= 1
    ensures |stops| == lines * |options|
  {
    StopsOfBandsLength(lines, options, lines);
    StopsOfBands(lines, options, lines)
  }

  predicate InUnit(s: ColorStop) {
    0.0 <= s.offset <= 1.0
  }

  predicate AllInUnit(stops: seq<ColorStop>) {
    forall k :: 0 <= k < |stops| ==> InUnit(stops[k])
  }

  predicate NonDecreasing(stops: seq<ColorStop>) {
    forall a, b :: 0 <= a <= b < |stops| ==> stops[a].offset <= stops[b].offset
  }

  predicate PercentsSorted(options: seq<ColorOption>) {
    forall a, b :: 0 <= a <= b < |options| ==> options[a].percent <= options[b].percent
  }

  predicate PercentsInRange(options: seq<ColorOption>) {
    forall j :: 0 <= j < |options| ==> 0.0 <= options[j].percent <= 100.0
  }

  /** A percent in [0, 100] lands in band `index`, that is in [index / lines, (index + 1) / lines]. */
  lemma OffsetInBand(lines: nat, index: nat, percent: real)
    requires lines >= 1 && 0.0 <= percent <= 100.0
    ensures index as real / lines as real <= Offset(lines, index, percent)
    ensures Offset(lines, index, percent) <= (index + 1) as real / lines as real
  {
    var l := lines as real;
    var base := (1.0 / l) * index as real;
    assert base == index as real / l;
    var scaled := (1.0 / l / 100.0) * percent;
    assert scaled == (percent / 100.0) / l;
    assert 0.0 <= percent / 100.0 <= 1.0;
    assert (percent / 100.0) / l <= 1.0 / l;
    assert (index + 1) as real / l == index as real / l + 1.0 / l;
  }

  lemma OffsetMonotone(lines: nat, index: nat, p: real, q: real)
    requires lines >= 1 && p <= q
    ensures Offset(lines, index, p) <= Offset(lines, index, q)
  {
    var c := 1.0 / lines as real / 100.0;
    assert c > 0.0;
    assert c * (q - p) >= 0.0;
  }

  lemma {:induction false} StopsOfBandsLength(lines: nat, options: seq<ColorOption>, bands: nat)
    requires lines >= 1
    ensures |StopsOfBands(lines, options, bands)| == bands * |options|
  {
    if bands > 0 {
      StopsOfBandsLength(lines, options, bands - 1);
    }
  }

  /**
   * Stop `index * |options| + j` is option j scaled into band `index`: band-major, then
   * option order, with `lines * |options|` stops in all.
   */
  lemma {:induction false} StopAt(lines: nat, options: seq<ColorOption>, bands: nat, index: nat, j: nat)
    requires lines >= 1 && index < bands && j < |options|
    ensures |StopsOfBands(lines, options, bands)| == bands * |options|
    ensures index * |options| + j < bands * |options|
    ensures StopsOfBands(lines, options, bands)[index * |options| + j]
         == ColorStop(Offset(lines, index, options[j].percent), options[j].color)
  {
    StopsOfBandsLength(lines, options, bands);
    StopsOfBandsLength(lines, options, bands - 1);
    if index < bands - 1 {
      StopAt(lines, options, bands - 1, index, j);
      assert index * |options| + j < (bands - 1) * |options|;
    } else {
      assert index * |options| == (bands - 1) * |options|;
    }
  }

  /** Every stop of the first `bands` bands lies in [0, bands / lines] and they never decrease. */
  lemma {:induction false} StopsOfBandsSorted(lines: nat, options: seq<ColorOption>, bands: nat)
    requires lines >= 1 && PercentsSorted(options) && PercentsInRange(options)
    ensures NonDecreasing(StopsOfBands(lines, options, bands))
    ensures forall k :: 0 <= k < |StopsOfBands(lines, options, bands)| ==>
      0.0 <= StopsOfBands(lines, options, bands)[k].offset <= bands as real / lines as real
  {
    if bands > 0 {
      var prev := StopsOfBands(lines, options, bands - 1);
      var band := BandStops(lines, bands - 1, options);
      StopsOfBandsSorted(lines, options, bands - 1);
      var lo := (bands - 1) as real / lines as real;
      forall j | 0 <= j < |band|
        ensures lo <= band[j].offset <= bands as real / lines as real
      {
        OffsetInBand(lines, bands - 1, options[j].percent);
      }
      forall a, b | 0 <= a <= b < |band|
        ensures band[a].offset <= band[b].offset
      {
        OffsetMonotone(lines, bands - 1, options[a].percent, options[b].percent);
      }
      assert lo <= bands as real / lines as real;
      assert 0.0 <= lo;
    }
  }

  /** With percents in [0, 100], every stop lies in [0, 1], so `addColorStop` never throws. */
  lemma StopsInUnit(lines: nat, options: seq<ColorOption>)
    requires lines >= 1 && PercentsInRange(options)
    ensures AllInUnit(Stops(lines, options))
  {
    StopsOfBandsInUnit(lines, options, lines);
  }

  lemma {:induction false} StopsOfBandsInUnit(lines: nat, options: seq<ColorOption>, bands: nat)
    requires lines >= 1 && bands <= lines && PercentsInRange(options)
    ensures AllInUnit(StopsOfBands(lines, options, bands))
  {
    if bands > 0 {
      StopsOfBandsInUnit(lines, options, bands - 1);
      var band := BandStops(lines, bands - 1, options);
      forall j | 0 <= j < |band|
        ensures InUnit(band[j])
      {
        OffsetInBand(lines, bands - 1, options[j].percent);
        assert bands as real / lines as real <= 1.0;
      }
    }
  }

  /** With percents in [0, 100] and non-decreasing, the whole stop sequence is non-decreasing. */
  lemma StopsSorted(lines: nat, options: seq<ColorOption>)
    requires lines >= 1 && PercentsSorted(options) && PercentsInRange(options)
    ensures NonDecreasing(Stops(lines, options))
  {
    StopsOfBandsSorted(lines, options, lines);
  }

  /** A stop of a band among the first `bands` is one of their stops. */
  lemma {:induction false} BandStopIn(lines: nat, options: seq<ColorOption>, bands: nat, index: nat, j: nat)
    requires lines >= 1 && index < bands && j < |options|
    ensures BandStops(lines, index, options)[j] in StopsOfBands(lines, options, bands)
  {
    if index < bands - 1 {
      BandStopIn(lines, options, bands - 1, index, j);
    }
  }

  /** The gradient axis and the stops added so far. */
  class CanvasGradient {
    const x0: real
    const y0: real
    const x1: real
    const y1: real
    var stops: seq<ColorStop>

    constructor (x0: real, y0: real, x1: real, y1: real)
      ensures this.x0 == x0 && this.y0 == y0 && this.x1 == x1 && this.y1 == y1 && stops == []
    {
      this.x0, this.y0, this.x1, this.y1 := x0, y0, x1, y1;
      stops := [];
    }

    /**
     * `addColorStop`: an offset outside [0, 1] raises an `IndexSizeError` (reported as
     * `ok == false`) and adds nothing.
     */
    method AddColorStop(offset: real, color: JsString) returns (ok: bool)
      modifies this
      ensures ok <==> 0.0 <= offset <= 1.0
      ensures stops == if ok then old(stops) + [ColorStop(offset, color)] else old(stops)
    {
      ok := 0.0 <= offset <= 1.0;
      if ok {
        stops := stops + [ColorStop(offset, color)];
      }
    }
  }

  /** A text object's fill: its flat colour, or a gradient. */
  datatype Fill = Flat(color: JsString) | GradientFill(gradient: CanvasGradient)

  /** The parts of a text object `makeGradient` uses: its height, font size in pixels, and fill. */
  class TextElement {
    const height: real
    const fontSize: real
    var fill: Fill

    constructor (height: real, fontSize: real, fill: Fill)
      ensures this.height == height && this.fontSize == fontSize && this.fill == fill
    {
      this.height, this.fontSize, this.fill := height, fontSize, fill;
    }
  }

  datatype GradientOutcome =
    | Made(gradient: CanvasGradient)
    | TooFewColors            // "at least two colors are expected" is logged
    | IndexSizeError          // thrown by addColorStop

  /**
   * `makeGradient`: with fewer than two options nothing is created and the fill stays;
   * otherwise a gradient on the axis (0, 5)-(0, height) receives `Stops(lines, options)`
   * and becomes the fill. A stop outside [0, 1] makes `addColorStop` throw, and then the
   * fill stays as well.
   */
  method MakeGradient(textElm: TextElement, options: seq<ColorOption>) returns (r: GradientOutcome)
    requires textElm.height >= 0.0 && textElm.fontSize > 0.0
    modifies textElm
    ensures |options| < 2 <==> r == TooFewColors
    ensures r.Made? <==> |options| >= 2 && AllInUnit(Stops(Lines(textElm.height, textElm.fontSize), options))
    ensures r.Made? ==> fresh(r.gradient) && textElm.fill == GradientFill(r.gradient)
    ensures r.Made? ==> r.gradient.stops == Stops(Lines(textElm.height, textElm.fontSize), options)
    ensures r.Made? ==> r.gradient.x0 == 0.0 && r.gradient.y0 == 5.0
    ensures r.Made? ==> r.gradient.x1 == 0.0 && r.gradient.y1 == textElm.height
    ensures !r.Made? ==> textElm.fill == old(textElm.fill)
  {
    var lines := Lines(textElm.height, textElm.fontSize);
    if |options| < 2 {
      return TooFewColors;
    }
    var gradient := new CanvasGradient(0.0, 5.0, 0.0, textElm.height);
    var index := 0;
    while index < lines
      invariant 0 <= index <= lines
      invariant fresh(gradient) && textElm.fill == old(textElm.fill)
      invariant gradient.stops == StopsOfBands(lines, options, index)
      invariant AllInUnit(gradient.stops)
    {
      var j := 0;
      while j < |options|
        invariant 0 <= j <= |options| && textElm.fill == old(textElm.fill)
        invariant gradient.stops == StopsOfBands(lines, options, index) + BandStops(lines, index, options)[..j]
        invariant AllInUnit(gradient.stops)
      {
        var option := options[j];
        var ok := gradient.AddColorStop(Offset(lines, index, option.percent), option.color);
        if !ok {
          BandStopIn(lines, options, lines, index, j);
          return IndexSizeError;
        }
        assert BandStops(lines, index, options)[..j + 1] == BandStops(lines, index, options)[..j] + [BandStops(lines, index, options)[j]];
        j := j + 1;
      }
      assert BandStops(lines, index, options)[..j] == BandStops(lines, index, options);
      index := index + 1;
    }
    textElm.fill := GradientFill(gradient);
    r := Made(gradient);
  }
}
