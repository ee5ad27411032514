/**
 * The emotion controller run once per frame by the p5 draw loop of src/App.js,
 * as pure functions over a value of its state (a Mood).
 *
 * A frame has two phases. The observed phase reads the five expression scores of
 * the first detected face and picks the brush and colour of the first highest
 * score. The synthetic phase then runs ten independent checks, in source order;
 * each check takes its own random draw (an input here) and fires when the draw is
 * below the check's probability and more than 3000 ms have passed since that
 * emotion last fired. Several checks may fire in one frame: the last writer of the
 * brush and of the colour wins, and synthetic writers overwrite the observed pick.
 */
module Emotion {
  import opened Wrappers

  /** A name in the brush library's registry, as passed to brush.pick. */
  type BrushName = string
  /** A colour as passed to setColor. */
  type Color = string

  // ---------------------------------------------------------------------------
  // Observed phase
  // ---------------------------------------------------------------------------

  /** The expression scores of one detected face that the controller reads. */
  datatype Expressions = Expressions(happy: real, sad: real, angry: real, disgusted: real, fearful: real)

  /** The scores in the fixed order happy, sad, angry, disgusted, fearful. */
  function AvailableEmotions(x: Expressions): seq<real> {
    [x.happy, x.sad, x.angry, x.disgusted, x.fearful]
  }

  /** Math.max over a non-empty list of scores. */
  function Max(s: seq<real>): (m: real)
    requires |s| > 0
    ensures m in s
    ensures forall i :: 0 <= i < |s| ==> s[i] <= m
  {
    if |s| == 1 then s[0]
    else
      var rest := Max(s[1..]);
      if s[0] >= rest then s[0] else rest
  }

  /** Array.prototype.indexOf: the first index holding x, or -1 when there is none. */
  function IndexOf(s: seq<real>, x: real): (k: int)
    ensures -1 <= k < |s|
    ensures k == -1 <==> x !in s
    ensures k >= 0 ==> s[k] == x && forall j :: 0 <= j < k ==> s[j] != x
  {
    if |s| == 0 then -1
    else if s[0] == x then 0
    else
      var k := IndexOf(s[1..], x);
      if k == -1 then -1 else k + 1
  }

  /** k is the first index of s holding the maximum of s. */
  predicate IsFirstMax(s: seq<real>, k: int) {
    && 0 <= k < |s|
    && (forall j :: 0 <= j < |s| ==> s[j] <= s[k])
    && (forall j :: 0 <= j < k ==> s[j] < s[k])
  }

  /** The index the switch of the observed phase dispatches on. */
  function ObservedIndex(x: Expressions): (k: int)
    ensures IsFirstMax(AvailableEmotions(x), k)
  {
    var s := AvailableEmotions(x);
    IndexOf(s, Max(s))
  }

  /** The brush and colour of each case of the observed switch; the default case picks nothing. */
  function ObservedPick(k: int): (r: Option<(BrushName, Color)>)
    ensures r.Some? <==> 0 <= k < 5
  {
    match k
    case 0 => Some(("happy", "#ffde59"))
    case 1 => Some(("sad", "#38b6ff"))
    case 2 => Some(("angry", "#ff1717"))
    case 3 => Some(("disgust", "#c9e165"))
    case 4 => Some(("fear", "#c9e165"))
    case _ => None
  }

  // ---------------------------------------------------------------------------
  // Synthetic emotions
  // ---------------------------------------------------------------------------

  /** The ten synthetic emotions that are checked (disgust and fear are not: their checks are commented out). */
  datatype Synthetic =
    | Anxiety | Envy | Embarassment | Boredom | Nostalgia
    | Sceptisism | Jealousy | Schadenfreude | Shame | Greed

  /** The order in which the checks run. */
  const Order: seq<Synthetic> :=
    [Anxiety, Envy, Embarassment, Boredom, Nostalgia, Sceptisism, Jealousy, Schadenfreude, Shame, Greed]

  /** One value per synthetic emotion: the ten last*Time timestamps, or the ten draws of a frame. */
  datatype PerEmotion<T> = PerEmotion(
    anxiety: T, envy: T, embarassment: T, boredom: T, nostalgia: T,
    sceptisism: T, jealousy: T, schadenfreude: T, shame: T, greed: T)
  {
    function Get(e: Synthetic): T {
      match e
      case Anxiety => anxiety
      case Envy => envy
      case Embarassment => embarassment
      case Boredom => boredom
      case Nostalgia => nostalgia
      case Sceptisism => sceptisism
      case Jealousy => jealousy
      case Schadenfreude => schadenfreude
      case Shame => shame
      case Greed => greed
    }

    function Set(e: Synthetic, v: T): (r: PerEmotion<T>)
      ensures r.Get(e) == v
      ensures forall e' :: e' != e ==> r.Get(e') == Get(e')
    {
      match e
      case Anxiety => this.(anxiety := v)
      case Envy => this.(envy := v)
      case Embarassment => this.(embarassment := v)
      case Boredom => this.(boredom := v)
      case Nostalgia => this.(nostalgia := v)
      case Sceptisism => this.(sceptisism := v)
      case Jealousy => this.(jealousy := v)
      case Schadenfreude => this.(schadenfreude := v)
      case Shame => this.(shame := v)
      case Greed => this.(greed := v)
    }
  }

  /** The probability bound of each check: 0.3 for anxiety, 0.02 for every other one. */
  function Probability(e: Synthetic): real {
    if e == Anxiety then 0.3 else 0.02
  }

  /** Each emotion's own cooldown constant; all ten are 3000 ms. */
  function Cooldown(e: Synthetic): int {
    3000
  }

  /** What a firing check does to the brush and the colour, besides its timestamps. */
  datatype Effect =
    | TimestampsOnly
    | ColorOnly(color: Color)
    | BrushAndColor(brush: BrushName, color: Color)

  function EffectOf(e: Synthetic): Effect {
    match e
    case Anxiety => BrushAndColor("anxiety", "#f67122")
    case Envy => TimestampsOnly
    case Embarassment => BrushAndColor("embarassment", "#f85ebe")
    case Boredom => ColorOnly("#5e69b9")
    case Nostalgia => BrushAndColor("nostalgia", "#ae8175")
    case Sceptisism => BrushAndColor("sceptisism", "#7f832e")
    case Jealousy => BrushAndColor("jealousy", "#a5cd98")
    case Schadenfreude => ColorOnly("#a5cd98")
    case Shame => BrushAndColor("shame", "#6c959f")
    case Greed => BrushAndColor("greed", "#29c784")
  }

  // ---------------------------------------------------------------------------
  // The controller's state and one frame
  // ---------------------------------------------------------------------------

  /**
   * The state the draw loop keeps between frames: the ten last*Time timestamps,
   * lastTriggerTime, the brush last picked (None: the library's own, before any
   * pick) and the colour last set.
   */
  datatype Mood = Mood(last: PerEmotion<int>, lastTrigger: int, brush: Option<BrushName>, color: Color)

  /** All timestamps 0, no brush picked, and the colour's initial React state. */
  const InitialMood: Mood :=
    Mood(PerEmotion(0, 0, 0, 0, 0, 0, 0, 0, 0, 0), 0, None, "ffba59")

  /**
   * The observed phase: with at least one face, the first highest score picks the brush
   * and colour. Its guard also tests !emotionTriggered, a flag that nothing ever sets, so
   * that conjunct always holds and is not modelled.
   */
  function ObservedPhase(m: Mood, faces: seq<Expressions>): (r: Mood)
    ensures r.last == m.last && r.lastTrigger == m.lastTrigger
    ensures |faces| == 0 ==> r == m
  {
    if |faces| > 0 then
      match ObservedPick(ObservedIndex(faces[0]))
      case Some((b, c)) => m.(brush := Some(b), color := c)
      case None => m
    else m
  }

  /** The firing condition of one check: the draw is below the probability and the cooldown has strictly passed. */
  predicate Fires(e: Synthetic, draw: real, last: int, now: int) {
    draw < Probability(e) && now - last > Cooldown(e)
  }

  /** A firing's effect on the brush and colour. */
  function Apply(eff: Effect, m: Mood): (r: Mood)
    ensures r.last == m.last && r.lastTrigger == m.lastTrigger
  {
    match eff
    case TimestampsOnly => m
    case ColorOnly(c) => m.(color := c)
    case BrushAndColor(b, c) => m.(brush := Some(b), color := c)
  }

  /** One synthetic check. */
  function Step(m: Mood, e: Synthetic, draw: real, now: int): Mood {
    if Fires(e, draw, m.last.Get(e), now) then
      Apply(EffectOf(e), m).(last := m.last.Set(e, now), lastTrigger := now)
    else m
  }

  /** The checks of es, run in order, each with its own draw. */
  function Run(m: Mood, es: seq<Synthetic>, draws: PerEmotion<real>, now: int): Mood
    decreases |es|
  {
    if es == [] then m
    else
      var e := es[|es| - 1];
      Step(Run(m, es[..|es| - 1], draws, now), e, draws.Get(e), now)
  }

  /**
   * The synthetic phase: the ten checks in source order. The source writes the ten checks
   * out one after another, identical up to the constants that Probability, Cooldown and
   * EffectOf tabulate.
   */
  function SyntheticPhase(m: Mood, draws: PerEmotion<real>, now: int): Mood {
    Run(m, Order, draws, now)
  }

  /** The inputs of one frame: whether the webcam is ready, the detected faces, the ten draws and Date.now(). */
  datatype FrameInput = FrameInput(ready: bool, faces: seq<Expressions>, draws: PerEmotion<real>, now: int)

  /** One frame of the draw loop; nothing happens before the webcam is ready. */
  function Frame(m: Mood, f: FrameInput): Mood {
    if f.ready then SyntheticPhase(ObservedPhase(m, f.faces), f.draws, f.now) else m
  }

  /** Frames run one after another. */
  function Frames(m: Mood, fs: seq<FrameInput>): Mood
    decreases |fs|
  {
    if fs == [] then m else Frame(Frames(m, fs[..|fs| - 1]), fs[|fs| - 1])
  }

  // ---------------------------------------------------------------------------
  // Properties
  // ---------------------------------------------------------------------------

  predicate Distinct(es: seq<Synthetic>) {
    forall i, j :: 0 <= i < j < |es| ==> es[i] != es[j]
  }

  /** Whether e fires, judged against the timestamps the phase started from. */
  predicate FiresFrom(m: Mood, e: Synthetic, draws: PerEmotion<real>, now: int) {
    Fires(e, draws.Get(e), m.last.Get(e), now)
  }

  /** The i-th check of es fires and picks a brush. */
  predicate WritesBrushAt(m: Mood, es: seq<Synthetic>, draws: PerEmotion<real>, now: int, i: int)
    requires 0 <= i < |es|
  {
    FiresFrom(m, es[i], draws, now) && EffectOf(es[i]).BrushAndColor?
  }

  /** The i-th check of es fires and sets the colour. */
  predicate WritesColorAt(m: Mood, es: seq<Synthetic>, draws: PerEmotion<real>, now: int, i: int)
    requires 0 <= i < |es|
  {
    FiresFrom(m, es[i], draws, now) && !EffectOf(es[i]).TimestampsOnly?
  }

  lemma OrderIsDistinct()
    ensures Distinct(Order) && |Order| == 10
    ensures forall e: Synthetic :: e in Order
  {
    forall e: Synthetic
      ensures e in Order
    {
      match e
      case Anxiety => assert Order[0] == e;
      case Envy => assert Order[1] == e;
      case Embarassment => assert Order[2] == e;
      case Boredom => assert Order[3] == e;
      case Nostalgia => assert Order[4] == e;
      case Sceptisism => assert Order[5] == e;
      case Jealousy => assert Order[6] == e;
      case Schadenfreude => assert Order[7] == e;
      case Shame => assert Order[8] == e;
      case Greed => assert Order[9] == e;
    }
  }

  /** A check that does not fire changes nothing; one that fires stamps its own timestamp and lastTriggerTime only. */
  lemma StepStamps(m: Mood, e: Synthetic, draw: real, now: int)
    ensures var r := Step(m, e, draw, now);
      && (!Fires(e, draw, m.last.Get(e), now) ==> r == m)
      && (Fires(e, draw, m.last.Get(e), now) ==>
            && r.last.Get(e) == now && r.lastTrigger == now
            && now - m.last.Get(e) > 3000
            && forall e' :: e' != e ==> r.last.Get(e') == m.last.Get(e'))
  {
  }

  /** Running one more check of es extends the run by one step. */
  lemma RunPrefix(m: Mood, es: seq<Synthetic>, k: nat, d: PerEmotion<real>, now: int)
    requires k < |es|
    ensures Run(m, es[..k + 1], d, now) == Step(Run(m, es[..k], d, now), es[k], d.Get(es[k]), now)
  {
    assert es[..k + 1][..k] == es[..k];
  }

  /** After running distinct checks, each timestamp is now exactly when its own check fired. */
  lemma {:induction false} RunTimestamps(m: Mood, es: seq<Synthetic>, draws: PerEmotion<real>, now: int)
    requires Distinct(es)
    ensures forall e ::
      Run(m, es, draws, now).last.Get(e) == (if e in es && FiresFrom(m, e, draws, now) then now else m.last.Get(e))
  {
    if es != [] {
      var init, e := es[..|es| - 1], es[|es| - 1];
      assert es == init + [e];
      assert Distinct(init);
      RunTimestamps(m, init, draws, now);
      assert e !in init;
      var p := Run(m, init, draws, now);
      assert Run(m, es, draws, now) == Step(p, e, draws.Get(e), now);
      forall x
        ensures Run(m, es, draws, now).last.Get(x) ==
          if x in es && FiresFrom(m, x, draws, now) then now else m.last.Get(x)
      {
        if x != e {
          assert x in es <==> x in init;
        }
      }
    }
  }

  /** Inside a run of distinct checks, each check decides on the timestamp the run started from. */
  lemma StepDecidesFromStart(m: Mood, es: seq<Synthetic>, draws: PerEmotion<real>, now: int)
    requires Distinct(es) && es != []
    ensures var e := es[|es| - 1];
      Run(m, es[..|es| - 1], draws, now).last.Get(e) == m.last.Get(e)
  {
    var init, e := es[..|es| - 1], es[|es| - 1];
    assert Distinct(init);
    RunTimestamps(m, init, draws, now);
    assert e !in init;
  }

  /** lastTriggerTime becomes now exactly when some check fired. */
  lemma {:induction false} RunLastTrigger(m: Mood, es: seq<Synthetic>, draws: PerEmotion<real>, now: int)
    requires Distinct(es)
    ensures Run(m, es, draws, now).lastTrigger ==
      if exists i :: 0 <= i < |es| && FiresFrom(m, es[i], draws, now) then now else m.lastTrigger
  {
    if es != [] {
      var init, e := es[..|es| - 1], es[|es| - 1];
      assert Distinct(init);
      RunLastTrigger(m, init, draws, now);
      StepDecidesFromStart(m, es, draws, now);
      if FiresFrom(m, e, draws, now) {
        assert FiresFrom(m, es[|es| - 1], draws, now);
      } else if exists i :: 0 <= i < |init| && FiresFrom(m, init[i], draws, now) {
        var i :| 0 <= i < |init| && FiresFrom(m, init[i], draws, now);
        assert es[i] == init[i];
      } else {
        forall i | 0 <= i < |es|
          ensures !FiresFrom(m, es[i], draws, now)
        {
          if i < |init| { assert es[i] == init[i]; }
        }
      }
    }
  }

  /** One check's effect on the brush: a firing check that picks a brush sets it; otherwise it stays. */
  lemma StepBrush(p: Mood, e: Synthetic, draw: real, now: int)
    ensures Step(p, e, draw, now).brush ==
      if Fires(e, draw, p.last.Get(e), now) && EffectOf(e).BrushAndColor? then Some(EffectOf(e).brush) else p.brush
  {
  }

  /** One check's effect on the colour: a firing check that sets a colour sets it; otherwise it stays. */
  lemma StepColor(p: Mood, e: Synthetic, draw: real, now: int)
    ensures Step(p, e, draw, now).color ==
      if Fires(e, draw, p.last.Get(e), now) && !EffectOf(e).TimestampsOnly? then EffectOf(e).color else p.color
  {
  }

  /** No check of es picks a brush: the run leaves the brush as it was. */
  lemma {:induction false} RunBrushKept(m: Mood, es: seq<Synthetic>, draws: PerEmotion<real>, now: int)
    requires Distinct(es)
    requires forall i :: 0 <= i < |es| ==> !WritesBrushAt(m, es, draws, now, i)
    ensures Run(m, es, draws, now).brush == m.brush
  {
    if es != [] {
      var init, e := es[..|es| - 1], es[|es| - 1];
      assert Distinct(init);
      forall i | 0 <= i < |init|
        ensures !WritesBrushAt(m, init, draws, now, i)
      {
        assert es[i] == init[i];
        assert !WritesBrushAt(m, es, draws, now, i);
      }
      RunBrushKept(m, init, draws, now);
      StepDecidesFromStart(m, es, draws, now);
      StepBrush(Run(m, init, draws, now), e, draws.Get(e), now);
      assert !WritesBrushAt(m, es, draws, now, |es| - 1);
    }
  }

  /** Check i is the last check of es that picks a brush: the run ends with its brush. */
  lemma {:induction false} RunBrushLastWriter(m: Mood, es: seq<Synthetic>, draws: PerEmotion<real>, now: int, i: int)
    requires Distinct(es)
    requires 0 <= i < |es| && WritesBrushAt(m, es, draws, now, i)
    requires forall j :: i < j < |es| ==> !WritesBrushAt(m, es, draws, now, j)
    ensures Run(m, es, draws, now).brush == Some(EffectOf(es[i]).brush)
  {
    var init, e := es[..|es| - 1], es[|es| - 1];
    StepDecidesFromStart(m, es, draws, now);
    StepBrush(Run(m, init, draws, now), e, draws.Get(e), now);
    if i < |init| {
      assert Distinct(init);
      assert !WritesBrushAt(m, es, draws, now, |es| - 1);
      assert es[i] == init[i];
      assert WritesBrushAt(m, init, draws, now, i);
      forall j | i < j < |init|
        ensures !WritesBrushAt(m, init, draws, now, j)
      {
        assert es[j] == init[j];
        assert !WritesBrushAt(m, es, draws, now, j);
      }
      RunBrushLastWriter(m, init, draws, now, i);
    }
  }

  /** No check of es sets a colour: the run leaves the colour as it was. */
  lemma {:induction false} RunColorKept(m: Mood, es: seq<Synthetic>, draws: PerEmotion<real>, now: int)
    requires Distinct(es)
    requires forall i :: 0 <= i < |es| ==> !WritesColorAt(m, es, draws, now, i)
    ensures Run(m, es, draws, now).color == m.color
  {
    if es != [] {
      var init, e := es[..|es| - 1], es[|es| - 1];
      assert Distinct(init);
      forall i | 0 <= i < |init|
        ensures !WritesColorAt(m, init, draws, now, i)
      {
        assert es[i] == init[i];
        assert !WritesColorAt(m, es, draws, now, i);
      }
      RunColorKept(m, init, draws, now);
      StepDecidesFromStart(m, es, draws, now);
      StepColor(Run(m, init, draws, now), e, draws.Get(e), now);
      assert !WritesColorAt(m, es, draws, now, |es| - 1);
    }
  }

  /** Check i is the last check of es that sets a colour: the run ends with its colour. */
  lemma {:induction false} RunColorLastWriter(m: Mood, es: seq<Synthetic>, draws: PerEmotion<real>, now: int, i: int)
    requires Distinct(es)
    requires 0 <= i < |es| && WritesColorAt(m, es, draws, now, i)
    requires forall j :: i < j < |es| ==> !WritesColorAt(m, es, draws, now, j)
    ensures Run(m, es, draws, now).color == EffectOf(es[i]).color
  {
    var init, e := es[..|es| - 1], es[|es| - 1];
    StepDecidesFromStart(m, es, draws, now);
    StepColor(Run(m, init, draws, now), e, draws.Get(e), now);
    if i < |init| {
      assert Distinct(init);
      assert !WritesColorAt(m, es, draws, now, |es| - 1);
      assert es[i] == init[i];
      assert WritesColorAt(m, init, draws, now, i);
      forall j | i < j < |init|
        ensures !WritesColorAt(m, init, draws, now, j)
      {
        assert es[j] == init[j];
        assert !WritesColorAt(m, es, draws, now, j);
      }
      RunColorLastWriter(m, init, draws, now, i);
    }
  }

  /** With every draw at or above its probability, a run changes nothing. */
  lemma {:induction false} RunQuiet(m: Mood, es: seq<Synthetic>, draws: PerEmotion<real>, now: int)
    requires forall e :: draws.Get(e) >= Probability(e)
    ensures Run(m, es, draws, now) == m
  {
    if es != [] {
      RunQuiet(m, es[..|es| - 1], draws, now);
    }
  }

  /** The observed phase adopts the brush and colour of the first highest score of the first face. */
  lemma ObservedPhaseFollowsFirstMax(m: Mood, faces: seq<Expressions>, k: int)
    requires |faces| > 0 && IsFirstMax(AvailableEmotions(faces[0]), k)
    ensures ObservedPick(k).Some?
    ensures ObservedPhase(m, faces) ==
      m.(brush := Some(ObservedPick(k).value.0), color := ObservedPick(k).value.1)
  {
  }

  /** The timestamps after one frame: each one is now exactly when its check fired in that frame. */
  lemma FrameTimestamps(m: Mood, f: FrameInput, e: Synthetic)
    ensures Frame(m, f).last.Get(e) ==
      if f.ready && FiresFrom(m, e, f.draws, f.now) then f.now else m.last.Get(e)
  {
    if f.ready {
      OrderIsDistinct();
      RunTimestamps(ObservedPhase(m, f.faces), Order, f.draws, f.now);
    }
  }

  /** Whether the checks of a frame run from o decide exactly as when run from m. */
  lemma SameDecisions(o: Mood, m: Mood, draws: PerEmotion<real>, now: int)
    requires o.last == m.last
    ensures forall i :: 0 <= i < |Order| ==>
      WritesBrushAt(o, Order, draws, now, i) == WritesBrushAt(m, Order, draws, now, i)
    ensures forall i :: 0 <= i < |Order| ==>
      WritesColorAt(o, Order, draws, now, i) == WritesColorAt(m, Order, draws, now, i)
  {
  }

  /** In a frame where no synthetic check picks a brush, the observed pick's brush stays. */
  lemma FrameKeepsObservedBrush(m: Mood, f: FrameInput, k: int)
    requires f.ready && |f.faces| > 0 && IsFirstMax(AvailableEmotions(f.faces[0]), k)
    requires forall i :: 0 <= i < |Order| ==> !WritesBrushAt(m, Order, f.draws, f.now, i)
    ensures ObservedPick(k).Some? && Frame(m, f).brush == Some(ObservedPick(k).value.0)
  {
    var o := ObservedPhase(m, f.faces);
    ObservedPhaseFollowsFirstMax(m, f.faces, k);
    OrderIsDistinct();
    SameDecisions(o, m, f.draws, f.now);
    RunBrushKept(o, Order, f.draws, f.now);
  }

  /** In a frame where no synthetic check sets a colour, the observed pick's colour stays. */
  lemma FrameKeepsObservedColor(m: Mood, f: FrameInput, k: int)
    requires f.ready && |f.faces| > 0 && IsFirstMax(AvailableEmotions(f.faces[0]), k)
    requires forall i :: 0 <= i < |Order| ==> !WritesColorAt(m, Order, f.draws, f.now, i)
    ensures ObservedPick(k).Some? && Frame(m, f).color == ObservedPick(k).value.1
  {
    var o := ObservedPhase(m, f.faces);
    ObservedPhaseFollowsFirstMax(m, f.faces, k);
    OrderIsDistinct();
    SameDecisions(o, m, f.draws, f.now);
    RunColorKept(o, Order, f.draws, f.now);
  }

  /** Last writer wins: the brush after a frame is that of the last synthetic check that picks one. */
  lemma FrameBrushLastWriter(m: Mood, f: FrameInput, i: int)
    requires f.ready
    requires 0 <= i < |Order| && WritesBrushAt(m, Order, f.draws, f.now, i)
    requires forall j :: i < j < |Order| ==> !WritesBrushAt(m, Order, f.draws, f.now, j)
    ensures Frame(m, f).brush == Some(EffectOf(Order[i]).brush)
  {
    var o := ObservedPhase(m, f.faces);
    OrderIsDistinct();
    SameDecisions(o, m, f.draws, f.now);
    RunBrushLastWriter(o, Order, f.draws, f.now, i);
  }

  /** Last writer wins: the colour after a frame is that of the last synthetic check that sets one. */
  lemma FrameColorLastWriter(m: Mood, f: FrameInput, i: int)
    requires f.ready
    requires 0 <= i < |Order| && WritesColorAt(m, Order, f.draws, f.now, i)
    requires forall j :: i < j < |Order| ==> !WritesColorAt(m, Order, f.draws, f.now, j)
    ensures Frame(m, f).color == EffectOf(Order[i]).color
  {
    var o := ObservedPhase(m, f.faces);
    OrderIsDistinct();
    SameDecisions(o, m, f.draws, f.now);
    RunColorLastWriter(o, Order, f.draws, f.now, i);
  }

  /** A frame with no face and where no draw is below its probability leaves the state as it was. */
  lemma QuietFrameUnchanged(m: Mood, f: FrameInput)
    requires |f.faces| == 0 && forall e :: f.draws.Get(e) >= Probability(e)
    ensures Frame(m, f) == m
  {
    RunQuiet(m, Order, f.draws, f.now);
  }

  /** Whether e fires in frame f run from m. */
  predicate FiredInFrame(m: Mood, f: FrameInput, e: Synthetic) {
    f.ready && FiresFrom(m, e, f.draws, f.now)
  }

  /** The times at which e fired over a sequence of frames. */
  function FiringTimes(m: Mood, fs: seq<FrameInput>, e: Synthetic): seq<int>
    decreases |fs|
  {
    if fs == [] then []
    else
      var f := fs[|fs| - 1];
      FiringTimes(m, fs[..|fs| - 1], e) + if FiredInFrame(Frames(m, fs[..|fs| - 1]), f, e) then [f.now] else []
  }

  /**
   * t lists firing times that start more than c after start and are more than c apart
   * from one another, and latest is the last of them (start when there is none).
   */
  predicate Spaced(t: seq<int>, start: int, latest: int, c: int) {
    && (|t| == 0 ==> latest == start)
    && (|t| > 0 ==> t[|t| - 1] == latest && t[0] - start > c)
    && (forall i :: 0 < i < |t| ==> t[i] - t[i - 1] > c)
  }

  /**
   * Appending a firing that comes more than c after the latest one keeps a spaced list of
   * firing times spaced, and skipping a frame keeps it as it is.
   */
  lemma AppendSpaced(t: seq<int>, start: int, latest: int, now: int, fired: bool, c: int)
    requires Spaced(t, start, latest, c)
    requires fired ==> now - latest > c
    ensures Spaced(t + (if fired then [now] else []), start, if fired then now else latest, c)
  {
  }

  /**
   * Cooldown over any run of frames: the first firing of e comes more than 3000 ms after its
   * starting timestamp, two consecutive firings are more than 3000 ms apart, and the
   * timestamp always holds the latest firing.
   */
  lemma {:induction false} FiringsSpaced(m: Mood, fs: seq<FrameInput>, e: Synthetic)
    ensures Spaced(FiringTimes(m, fs, e), m.last.Get(e), Frames(m, fs).last.Get(e), Cooldown(e))
  {
    if fs != [] {
      var init, f := fs[..|fs| - 1], fs[|fs| - 1];
      FiringsSpaced(m, init, e);
      FramesStep(m, fs, e);
      var p := Frames(m, init);
      AppendSpaced(FiringTimes(m, init, e), m.last.Get(e), p.last.Get(e), f.now, FiredInFrame(p, f, e), Cooldown(e));
    }
  }

  /** One more frame: e's timestamp and firing times grow by that frame's firing of e, if any. */
  lemma FramesStep(m: Mood, fs: seq<FrameInput>, e: Synthetic)
    requires fs != []
    ensures var init, f := fs[..|fs| - 1], fs[|fs| - 1];
      var p := Frames(m, init);
      var fired := FiredInFrame(p, f, e);
      && Frames(m, fs).last.Get(e) == (if fired then f.now else p.last.Get(e))
      && FiringTimes(m, fs, e) == FiringTimes(m, init, e) + (if fired then [f.now] else [])
      && (fired ==> f.now - p.last.Get(e) > Cooldown(e))
  {
    var init, f := fs[..|fs| - 1], fs[|fs| - 1];
    FrameTimestamps(Frames(m, init), f, e);
  }

  /** A run of frames, each with no face and every draw at or above its probability, changes nothing. */
  lemma {:induction false} QuietFramesUnchanged(m: Mood, fs: seq<FrameInput>)
    requires forall i :: 0 <= i < |fs| ==> |fs[i].faces| == 0 && forall e :: fs[i].draws.Get(e) >= Probability(e)
    ensures Frames(m, fs) == m
  {
    if fs != [] {
      QuietFramesUnchanged(m, fs[..|fs| - 1]);
      QuietFrameUnchanged(m, fs[|fs| - 1]);
    }
  }
}
