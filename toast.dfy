/**
 * ToastNotification: a short message that fades in over ten frames, stays
 * for its duration, fades out over fifteen frames and hides itself, one
 * frame per timer tick.
 */
module Toast {
  import OperationResults

  datatype Style = Success | Warning | Error | Info

  datatype AnimationState = FadingIn | Visible | FadingOut | Hidden

  const FadeInFrames := 10
  const FadeOutFrames := 15
  const AnimationIntervalMs := 16
  const DefaultDurationMs := 3000

  /**
   * The style showResult picks: Error for a failed result or one with
   * errors, else Warning when it has warnings, else Success; never Info.
   */
  function StyleFor(success: bool, errorCount: int, warningCount: int): (s: Style)
    ensures s == Error <==> !success || errorCount > 0
    ensures s == Warning <==> success && errorCount <= 0 && warningCount > 0
    ensures s == Success <==> success && errorCount <= 0 && warningCount <= 0
  {
    if !success then Error
    else if errorCount > 0 then Error
    else if warningCount > 0 then Warning
    else Success
  }

  /** The animation's part of the toast's state, with whether it is shown and its timer runs. */
  datatype Anim = Anim(state: AnimationState, frameCount: int, alpha: real, isVisible: bool, timerRunning: bool)

  /** The state show leaves: fading in from frame 0, transparent, shown, with the timer running. */
  const Shown := Anim(FadingIn, 0, 0.0, true, true)

  /** The state the toast is constructed in, and ends in. */
  const Initial := Anim(Hidden, 0, 0.0, false, false)

  /**
   * What the animation stays within: alpha in [0, 1]; the frame count below
   * the fade length while fading and never negative; fully opaque while
   * visible; shown with the timer running until hidden, and transparent,
   * not shown and with the timer stopped once hidden.
   */
  predicate AnimValid(a: Anim) {
    0.0 <= a.alpha <= 1.0 && a.frameCount >= 0 &&
    (a.state == FadingIn ==> a.frameCount < FadeInFrames && a.isVisible && a.timerRunning) &&
    (a.state == Visible ==> a.alpha == 1.0 && a.isVisible && a.timerRunning) &&
    (a.state == FadingOut ==> a.frameCount < FadeOutFrames && a.isVisible && a.timerRunning) &&
    (a.state == Hidden ==> a.alpha == 0.0 && !a.isVisible && !a.timerRunning)
  }

  /**
   * timerCallback: count the frame, then step the animation for the state it
   * is in.  A tick that stays in its state counts one more frame; entering a
   * new state restarts the count, except that hiding keeps it; while fading
   * in, alpha is the frame count in tenths, and while fading out one less the
   * count in fifteenths.
   */
  function Tick(a: Anim, visibleDurationMs: int): (r: Anim)
    ensures r.state == a.state ==> r.frameCount == a.frameCount + 1
    ensures r.state != a.state ==> r.frameCount == if r.state == Hidden then a.frameCount + 1 else 0
    ensures r.state == FadingIn ==> r.alpha == r.frameCount as real / FadeInFrames as real
    ensures a.state == FadingOut == r.state ==> r.alpha == 1.0 - r.frameCount as real / FadeOutFrames as real
    ensures AnimValid(a) ==> AnimValid(r)
  {
    var frameCount := a.frameCount + 1;
    match a.state
    case FadingIn =>
      if frameCount >= FadeInFrames then a.(state := Visible, frameCount := 0, alpha := 1.0)
      else a.(frameCount := frameCount, alpha := frameCount as real / FadeInFrames as real)
    case Visible =>
      if frameCount * AnimationIntervalMs >= visibleDurationMs then a.(state := FadingOut, frameCount := 0)
      else a.(frameCount := frameCount)
    case FadingOut =>
      var alpha := 1.0 - frameCount as real / FadeOutFrames as real;
      if frameCount >= FadeOutFrames || alpha <= 0.0 then
        a.(state := Hidden, frameCount := frameCount, alpha := 0.0, isVisible := false, timerRunning := false)
      else a.(frameCount := frameCount, alpha := alpha)
    case Hidden =>
      a.(frameCount := frameCount, timerRunning := false)
  }

  /** `n` timer ticks in a row. */
  function Ticks(a: Anim, visibleDurationMs: int, n: nat): Anim {
    if n == 0 then a else Tick(Ticks(a, visibleDurationMs, n - 1), visibleDurationMs)
  }

  /** dismiss: anything but a hidden toast starts fading out from frame 0. */
  function Dismissed(a: Anim): (r: Anim)
    ensures a.state == Hidden ==> r == a
    ensures a.state != Hidden ==> r == a.(state := FadingOut, frameCount := 0)
    ensures AnimValid(a) ==> AnimValid(r)
  {
    if a.state != Hidden then a.(state := FadingOut, frameCount := 0) else a
  }

  /** The order the animation runs through its states. */
  function Rank(s: AnimationState): nat {
    match s
    case FadingIn => 0
    case Visible => 1
    case FadingOut => 2
    case Hidden => 3
  }

  /** A tick only moves the animation forward, and at most one state at a time. */
  lemma TickMovesForward(a: Anim, visibleDurationMs: int)
    requires AnimValid(a)
    ensures Rank(a.state) <= Rank(Tick(a, visibleDurationMs).state) <= Rank(a.state) + 1
  {
  }

  /** After show, ticks 1..9 set alpha to a tenth per tick, and tick 10 makes the toast fully visible. */
  lemma {:induction false} FadeIn(visibleDurationMs: int, n: nat)
    requires n <= FadeInFrames
    ensures n < FadeInFrames ==>
              Ticks(Shown, visibleDurationMs, n) == Anim(FadingIn, n, n as real / FadeInFrames as real, true, true)
    ensures n == FadeInFrames ==> Ticks(Shown, visibleDurationMs, n) == Anim(Visible, 0, 1.0, true, true)
  {
    if n > 0 {
      FadeIn(visibleDurationMs, n - 1);
    }
  }

  /**
   * Once visible, the toast stays so for every tick whose count times the
   * interval is under the duration, and the first tick that reaches it
   * starts the fade out.
   */
  lemma {:induction false} StaysVisible(alpha: real, visibleDurationMs: int, n: nat)
    requires n * AnimationIntervalMs < visibleDurationMs
    ensures Ticks(Anim(Visible, 0, alpha, true, true), visibleDurationMs, n) == Anim(Visible, n, alpha, true, true)
  {
    if n > 0 {
      StaysVisible(alpha, visibleDurationMs, n - 1);
    }
  }

  lemma {:induction false} VisibleEnds(alpha: real, visibleDurationMs: int, n: nat)
    requires n >= 1 && (n - 1) * AnimationIntervalMs < visibleDurationMs <= n * AnimationIntervalMs
    ensures Ticks(Anim(Visible, 0, alpha, true, true), visibleDurationMs, n) == Anim(FadingOut, 0, alpha, true, true)
  {
    StaysVisible(alpha, visibleDurationMs, n - 1);
  }

  /**
   * Fading out from frame 0, ticks 1..14 take a fifteenth of full alpha
   * each, and tick 15 hides the toast and stops its timer.
   */
  lemma {:induction false} FadeOut(alpha: real, visibleDurationMs: int, n: nat)
    requires 0.0 <= alpha <= 1.0 && 1 <= n <= FadeOutFrames
    ensures n < FadeOutFrames ==>
              Ticks(Anim(FadingOut, 0, alpha, true, true), visibleDurationMs, n) ==
              Anim(FadingOut, n, 1.0 - n as real / FadeOutFrames as real, true, true)
    ensures n == FadeOutFrames ==>
              Ticks(Anim(FadingOut, 0, alpha, true, true), visibleDurationMs, n) == Anim(Hidden, n, 0.0, false, false)
  {
    if n > 1 {
      FadeOut(alpha, visibleDurationMs, n - 1);
    }
  }

  /** Hidden stays hidden: ticks only count frames, with the timer stopped. */
  lemma {:induction false} HiddenStays(a: Anim, visibleDurationMs: int, n: nat)
    requires a.state == Hidden
    ensures Ticks(a, visibleDurationMs, n) == a.(frameCount := a.frameCount + n, timerRunning := a.timerRunning && n == 0)
  {
    if n > 0 {
      HiddenStays(a, visibleDurationMs, n - 1);
    }
  }

  /**
   * A toast dismissed while it fades in starts its fade out from full
   * alpha: three frames after show it is at 3/10, and the tick after dismiss
   * raises it to 14/15.
   */
  lemma DismissDuringFadeIn(visibleDurationMs: int)
    ensures Ticks(Shown, visibleDurationMs, 3).alpha == 3.0 / 10.0
    ensures Tick(Dismissed(Ticks(Shown, visibleDurationMs, 3)), visibleDurationMs).alpha == 14.0 / 15.0
  {
    FadeIn(visibleDurationMs, 3);
  }

  class ToastNotification {
    var message: string
    var currentStyle: Style
    var visibleDurationMs: int
    var animationState: AnimationState
    var frameCount: int
    var alpha: real
    var isVisible: bool
    var timerRunning: bool

    function Animation(): Anim
      reads this
    {
      Anim(animationState, frameCount, alpha, isVisible, timerRunning)
    }

    predicate Valid()
      reads this
    {
      AnimValid(Animation())
    }

    /** The member initialisers: hidden, transparent, Info style, the default duration, no timer. */
    constructor ()
      ensures Valid() && Animation() == Initial
      ensures message == "" && currentStyle == Info && visibleDurationMs == DefaultDurationMs
    {
      message := "";
      currentStyle := Info;
      visibleDurationMs := DefaultDurationMs;
      animationState := Hidden;
      frameCount := 0;
      alpha := 0.0;
      isVisible := false;
      timerRunning := false;
    }

    /** show: take the message, style and duration, and restart the fade in. */
    method Show(msg: string, style: Style, durationMs: int)
      modifies this
      ensures Valid() && Animation() == Shown
      ensures message == msg && currentStyle == style && visibleDurationMs == durationMs
    {
      message := msg;
      currentStyle := style;
      visibleDurationMs := durationMs;
      animationState := FadingIn;
      frameCount := 0;
      alpha := 0.0;
      isVisible := true;
      timerRunning := true;
    }

    /** showResult: show the result's summary in the style its outcome calls for. */
    method ShowResult(result: OperationResults.OperationResult, durationMs: int)
      modifies this
      ensures Valid() && Animation() == Shown && visibleDurationMs == durationMs
      ensures currentStyle == StyleFor(result.success, result.GetErrorCount(), result.GetWarningCount())
      ensures message == OperationResults.OutcomeText(result.success, result.operationName, result.itemsProcessed)
                         + OperationResults.IssuesText(result.GetErrorCount(), result.GetWarningCount())
    {
      var style;
      if !result.success {
        style := Error;
      } else if result.GetErrorCount() > 0 {
        style := Error;
      } else if result.GetWarningCount() > 0 {
        style := Warning;
      } else {
        style := Success;
      }
      var msg := result.GetSummary();
      Show(msg, style, durationMs);
    }

    /** dismiss: start fading out now, unless already hidden. */
    method Dismiss()
      requires Valid()
      modifies this
      ensures Valid() && Animation() == Dismissed(old(Animation()))
      ensures message == old(message) && currentStyle == old(currentStyle) && visibleDurationMs == old(visibleDurationMs)
    {
      if animationState != Hidden {
        animationState := FadingOut;
        frameCount := 0;
      }
    }

    /** timerCallback: one frame of the animation. */
    method TimerCallback()
      requires Valid()
      modifies this
      ensures Valid() && Animation() == Tick(old(Animation()), visibleDurationMs)
      ensures message == old(message) && currentStyle == old(currentStyle) && visibleDurationMs == old(visibleDurationMs)
    {
      frameCount := frameCount + 1;
      match animationState {
        case FadingIn =>
          alpha := frameCount as real / FadeInFrames as real;
          if frameCount >= FadeInFrames {
            alpha := 1.0;
            animationState := Visible;
            frameCount := 0;
          }
        case Visible =>
          if frameCount * AnimationIntervalMs >= visibleDurationMs {
            animationState := FadingOut;
            frameCount := 0;
          }
        case FadingOut =>
          alpha := 1.0 - (frameCount as real / FadeOutFrames as real);
          if frameCount >= FadeOutFrames || alpha <= 0.0 {
            alpha := 0.0;
            animationState := Hidden;
            isVisible := false;
            timerRunning := false;
          }
        case Hidden =>
          timerRunning := false;
      }
    }
  }
}
