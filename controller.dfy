/**
 * The draw loop's emotion state in src/App.js as an object: the ten last*Time
 * timestamps (kept together in one record field), lastTriggerTime, the picked
 * brush and the colour are fields that one frame updates step by step, in
 * source order.
 */
module Controller {
  import opened Wrappers
  import opened Emotion

  class EmotionController {
    var lastTriggerTime: int
    /** lastAnxietyTime ... lastGreedTime, one per synthetic emotion. */
    var last: PerEmotion<int>
    var brush: Option<BrushName>
    var color: Color

    /** The whole state, as the value the pure model speaks about. */
    function State(): Mood
      reads this
    {
      Mood(last, lastTriggerTime, brush, color)
    }

    constructor ()
      ensures State() == InitialMood
    {
      lastTriggerTime := 0;
      last := PerEmotion(0, 0, 0, 0, 0, 0, 0, 0, 0, 0);
      brush := None;
      color := "ffba59";
    }

    /** The observed phase: the first face's first highest score picks the brush and colour. */
    method Observe(faces: seq<Expressions>)
      modifies this
      ensures State() == ObservedPhase(old(State()), faces)
    {
      if |faces| > 0 {
        var scores := AvailableEmotions(faces[0]);
        match ObservedPick(IndexOf(scores, Max(scores))) {
          case Some((b, c)) =>
            brush := Some(b);
            color := c;
          case None =>
        }
      }
    }

    /** One synthetic check with its own draw. */
    method Check(e: Synthetic, draw: real, now: int)
      modifies this
      ensures State() == Step(old(State()), e, draw, now)
    {
      if draw < Probability(e) && now - last.Get(e) > Cooldown(e) {
        match EffectOf(e) {
          case TimestampsOnly =>
          case ColorOnly(c) =>
            color := c;
          case BrushAndColor(b, c) =>
            brush := Some(b);
            color := c;
        }
        last := last.Set(e, now);
        lastTriggerTime := now;
      }
    }

    /**
     * One frame of the draw loop: when the webcam is ready, the observed phase, then
     * the ten synthetic checks in source order, each with its own draw. The ten checks,
     * written out one after another in the source, run here as one loop over Order.
     */
    method Tick(ready: bool, faces: seq<Expressions>, draws: PerEmotion<real>, now: int)
      modifies this
      ensures State() == Frame(old(State()), FrameInput(ready, faces, draws, now))
    {
      if !ready {
        return;
      }
      Observe(faces);
      ghost var observed := State();
      for i := 0 to |Order|
        invariant State() == Run(observed, Order[..i], draws, now)
      {
        Check(Order[i], draws.Get(Order[i]), now);
        RunPrefix(observed, Order, i, draws, now);
      }
      assert Order[..|Order|] == Order;
    }
  }
}
