/**
 * Scroll feedback (`src/components/ScrollAudio.tsx`): once enabled by a
 * first interaction, every scroll of at least 50 pixels away from the
 * position of the last feedback plays one tick sound and one vibration.
 * The browser's audio context is reduced to its state; sound and
 * vibration are reported as a `Feedback` value.
 */
module ScrollAudio {
  import opened Wrappers

  /** Pixels of scrolling per feedback "dot". */
  const ScrollThreshold: nat := 50

  /** The states an AudioContext reports. */
  datatype ContextState = Suspended | Running | Closed

  /** What constructing an AudioContext does in this browser. */
  datatype AudioSupport = NoAudioApi | ConstructorThrows | Constructs(initial: ContextState)

  /** What one scroll event produced. */
  datatype Feedback = Feedback(sound: bool, haptic: bool)

  function Abs(x: int): nat {
    if x < 0 then -x else x
  }

  /** The scroll is far enough from the last feedback position to trigger a dot. */
  predicate Crosses(last: int, y: int) {
    Abs(y - last) >= ScrollThreshold
  }

  /**
   * The feedback position after a scroll event at `y`: it moves to `y` on a
   * dot and stays otherwise, and either way ends within the threshold of `y`.
   */
  function NextFeedbackY(last: int, y: int): (next: int)
    ensures Crosses(last, y) ==> next == y
    ensures !Crosses(last, y) ==> next == last
    ensures Abs(y - next) < ScrollThreshold
  {
    if Crosses(last, y) then y else last
  }

  /** How many dots a run of scroll events at positions `ys` produces, starting from feedback position `last`. */
  function Dots(last: int, ys: seq<int>): (n: nat)
    ensures n <= |ys|
    ensures n == 0 <==> forall i :: 0 <= i < |ys| ==> !Crosses(last, ys[i])
    decreases |ys|
  {
    if ys == [] then 0
    else (if Crosses(last, ys[0]) then 1 else 0) + Dots(NextFeedbackY(last, ys[0]), ys[1..])
  }

  /** The distance scrolled from position `p` through the positions `ys`. */
  function Travel(p: int, ys: seq<int>): nat
    decreases |ys|
  {
    if ys == [] then 0 else Abs(ys[0] - p) + Travel(ys[0], ys[1..])
  }

  /**
   * Each dot needs 50 pixels of actual scrolling: from page position `p`
   * and feedback position `last`, the dots of a run are bounded by the
   * distance travelled (plus the gap already between `p` and `last`).
   */
  lemma {:induction false} DotsBoundedByTravel(p: int, last: int, ys: seq<int>)
    ensures ScrollThreshold * Dots(last, ys) <= Abs(p - last) + Travel(p, ys)
    decreases |ys|
  {
    if ys != [] {
      var y := ys[0];
      DotsBoundedByTravel(y, NextFeedbackY(last, y), ys[1..]);
      assert Abs(y - last) <= Abs(p - last) + Abs(y - p);
    }
  }

  /** The state after `createAudioContext`, then `resume` when suspended (which ends in `resumedTo`). */
  function ContextAfterSetup(context: Option<ContextState>, support: AudioSupport, resumedTo: ContextState): (c: Option<ContextState>)
    ensures context.Some? && context.value != Suspended ==> c == context
    ensures context.None? && !support.Constructs? ==> c.None?
    ensures context == Some(Suspended) ==> c == Some(resumedTo)
    ensures context.None? && support.Constructs? ==>
      c == Some(if support.initial == Suspended then resumedTo else support.initial)
    ensures c == Some(Running) ==>
      context == Some(Running) || context == Some(Suspended) || (context.None? && support.Constructs?)
  {
    var created := if context.Some? then context
                   else if support.Constructs? then Some(support.initial) else None;
    if created == Some(Suspended) then Some(resumedTo) else created
  }

  /** The component: its state, its refs and the browser capabilities it probes. */
  class Player {
    const support: AudioSupport
    const canVibrate: bool
    var isEnabled: bool
    var lastFeedbackY: int
    var context: Option<ContextState>

    /** The feature is only ever enabled after an audio context exists. */
    ghost predicate Valid()
      reads this
    {
      isEnabled ==> context.Some?
    }

    constructor (support: AudioSupport, canVibrate: bool)
      ensures Valid() && this.support == support && this.canVibrate == canVibrate
      ensures !isEnabled && lastFeedbackY == 0 && context.None?
    {
      this.support := support;
      this.canVibrate := canVibrate;
      isEnabled := false;
      lastFeedbackY := 0;
      context := None;
    }

    /** `createAudioContext`: reuses an existing context, else constructs one when the browser can. */
    method CreateAudioContext() returns (ok: bool)
      requires Valid()
      modifies this
      ensures Valid()
      ensures old(context).Some? ==> ok && context == old(context)
      ensures old(context).None? ==> (ok <==> support.Constructs?)
      ensures old(context).None? ==> context == if support.Constructs? then Some(support.initial) else None
      ensures isEnabled == old(isEnabled) && lastFeedbackY == old(lastFeedbackY)
    {
      if context.Some? {
        return true;
      }
      match support
      case NoAudioApi => ok := false;
      case ConstructorThrows => ok := false;
      case Constructs(initial) =>
        context := Some(initial);
        ok := true;
    }

    /** The effect's cleanup: the context, when there is one, is closed. */
    method Cleanup()
      requires Valid()
      modifies this
      ensures Valid()
      ensures context == if old(context).Some? then Some(Closed) else None
      ensures isEnabled == old(isEnabled) && lastFeedbackY == old(lastFeedbackY)
    {
      if context.Some? && context.value != Closed {
        context := Some(Closed);
      }
    }

    /**
     * `setIsEnabled(b)`. The effect lists `isEnabled` as a dependency, so a
     * change runs its cleanup, which closes the context, before the effect
     * runs again.
     */
    method SetEnabled(b: bool)
      requires Valid() && (b ==> context.Some?)
      modifies this
      ensures Valid() && isEnabled == b && lastFeedbackY == old(lastFeedbackY)
      ensures context == if b != old(isEnabled) then Some(Closed) else old(context)
    {
      if b != isEnabled {
        Cleanup();
        isEnabled := b;
      }
    }

    /**
     * `enableFeature` as written: when setup reaches a running context the
     * feature is enabled at the current scroll position, and the re-run of
     * the effect closes the context it has just started.
     */
    method EnableFeature(resumedTo: ContextState, scrollY: int)
      requires Valid()
      modifies this
      ensures Valid()
      ensures var reached := ContextAfterSetup(old(context), support, resumedTo);
        && (reached == Some(Running) ==>
              isEnabled && lastFeedbackY == scrollY
              && context == if old(isEnabled) then Some(Running) else Some(Closed))
        && (reached != Some(Running) ==>
              isEnabled == old(isEnabled) && lastFeedbackY == old(lastFeedbackY) && context == reached)
    {
      var ok := CreateAudioContext();
      if !ok {
        return;
      }
      if context == Some(Suspended) {
        context := Some(resumedTo);
      }
      if context == Some(Running) {
        SetEnabled(true);
        lastFeedbackY := scrollY;
      }
    }

    /**
     * `enableFeature` as evidently intended: enabling leaves the running
     * context open, so the next dot is audible.
     */
    method EnableFeatureIntended(resumedTo: ContextState, scrollY: int)
      requires Valid()
      modifies this
      ensures Valid()
      ensures var reached := ContextAfterSetup(old(context), support, resumedTo);
        && (reached == Some(Running) ==> isEnabled && lastFeedbackY == scrollY && context == Some(Running))
        && (reached != Some(Running) ==>
              isEnabled == old(isEnabled) && lastFeedbackY == old(lastFeedbackY) && context == reached)
    {
      var ok := CreateAudioContext();
      if !ok {
        return;
      }
      if context == Some(Suspended) {
        context := Some(resumedTo);
      }
      if context == Some(Running) {
        isEnabled := true;
        lastFeedbackY := scrollY;
      }
    }

    /**
     * `handleScroll`: nothing while disabled; otherwise a dot exactly when
     * the scroll crosses the threshold, its sound only from a running
     * context and its vibration only where the browser vibrates.
     */
    method HandleScroll(scrollY: int) returns (f: Feedback)
      requires Valid()
      modifies this
      ensures Valid() && isEnabled == old(isEnabled) && context == old(context)
      ensures !isEnabled ==> f == Feedback(false, false) && lastFeedbackY == old(lastFeedbackY)
      ensures isEnabled ==> lastFeedbackY == NextFeedbackY(old(lastFeedbackY), scrollY)
      ensures isEnabled ==> f.sound == (Crosses(old(lastFeedbackY), scrollY) && context == Some(Running))
      ensures isEnabled ==> f.haptic == (Crosses(old(lastFeedbackY), scrollY) && canVibrate)
    {
      if !isEnabled {
        return Feedback(false, false);
      }
      if Crosses(lastFeedbackY, scrollY) {
        f := Feedback(context == Some(Running), canVibrate);
        lastFeedbackY := scrollY;
      } else {
        f := Feedback(false, false);
      }
    }

    /** Unmounting runs the cleanup once more. */
    method Unmount()
      requires Valid()
      modifies this
      ensures Valid() && context == if old(context).Some? then Some(Closed) else None
      ensures isEnabled == old(isEnabled) && lastFeedbackY == old(lastFeedbackY)
    {
      Cleanup();
    }
  }

  /** A closed context is never reopened by a later interaction, so sound stays off for good. */
  lemma ClosedContextStaysClosed(support: AudioSupport, resumedTo: ContextState)
    ensures ContextAfterSetup(Some(Closed), support, resumedTo) == Some(Closed)
  {
  }

  /**
   * As written: a browser whose context starts suspended and resumes, a
   * first click at the top of the page, then a 60-pixel scroll. The dot
   * vibrates but makes no sound.
   */
  method FirstDotAsWritten() returns (f: Feedback)
    ensures f.haptic && !f.sound
  {
    var player := new Player(Constructs(Suspended), true);
    player.EnableFeature(Running, 0);
    f := player.HandleScroll(60);
  }

  /** The same sequence with the intended enabling: the dot is heard and felt. */
  method FirstDotIntended() returns (f: Feedback)
    ensures f.haptic && f.sound
  {
    var player := new Player(Constructs(Suspended), true);
    player.EnableFeatureIntended(Running, 0);
    f := player.HandleScroll(60);
  }
}
