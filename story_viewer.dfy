/** The story viewer: a slideshow over a fixed sequence of stories with an active
    index, a pause flag, a touch-start slot, a progress loop driven by animation
    frames, and the callbacks it fires (`onClose`, `markStoryAsViewed`). */
module StoryViewerComponent {
  import opened Wrappers
  import StoryService

  /** Milliseconds each story stays on screen (`STORY_DURATION`). */
  const StoryDuration: int := 5000
  /** A horizontal swipe must cover strictly more than this distance. */
  const SwipeThreshold: int := 50
  /** The viewer id recorded for every story shown (`markStoryAsViewed(id, 1)`). */
  const CurrentViewer: int := 1

  datatype Action = Previous | Next | CloseViewer | Nothing

  /** A call the viewer makes to the outside world, in the order it makes them. */
  datatype Effect = Closed | MarkedViewed(storyId: int, viewerId: int)

  /** `handleKeyDown`: the action bound to a key (`e.key`). */
  function KeyAction(key: string): (a: Action)
    ensures a == Previous <==> key == "ArrowLeft"
    ensures a == Next <==> key == "ArrowRight" || key == " "
    ensures a == CloseViewer <==> key == "Escape"
  {
    if key == "ArrowLeft" then Previous
    else if key == "ArrowRight" || key == " " then Next
    else if key == "Escape" then CloseViewer
    else Nothing
  }

  /** `handleTouchEnd`: a recorded start of 0 is falsy and aborts like a missing one;
      otherwise a swipe to the left of more than 50 goes forward, one to the right
      of more than 50 goes back, and anything shorter does nothing. */
  function SwipeAction(touchStart: Option<int>, touchEnd: int): (a: Action)
    ensures a != CloseViewer
    ensures a == Next <==> touchStart.Some? && touchStart.value != 0 && touchStart.value - touchEnd > SwipeThreshold
    ensures a == Previous <==> touchStart.Some? && touchStart.value != 0 && touchEnd - touchStart.value > SwipeThreshold
  {
    match touchStart
    case None => Nothing
    case Some(start) =>
      if start == 0 then Nothing
      else
        var diff := start - touchEnd;
        var distance := if diff < 0 then -diff else diff;
        if distance > SwipeThreshold then (if diff > 0 then Next else Previous)
        else Nothing
  }

  /** The first effect hook, run on mount and whenever the active index changes: close
      at once on an empty list, else mark the story at `index` (if any) as viewed. */
  function ViewEffects(stories: seq<StoryService.Story>, index: int): (e: seq<Effect>)
    ensures stories == [] ==> e == [Closed]
    ensures stories != [] && 0 <= index < |stories| ==> e == [MarkedViewed(stories[index].Id, CurrentViewer)]
    ensures stories != [] && !(0 <= index < |stories|) ==> e == []
  {
    if stories == [] then [Closed]
    else if 0 <= index < |stories| then [MarkedViewed(stories[index].Id, CurrentViewer)]
    else []
  }

  class StoryViewer {
    const stories: seq<StoryService.Story>
    var activeIndex: int
    var isPaused: bool
    /** Elapsed milliseconds shown on the active bar; `StoryDuration` is 100%. */
    var progress: int
    var touchStart: Option<int>
    /** An animation frame of the progress loop is scheduled (`timerRef` holds a live frame). */
    var framePending: bool
    /** Clock reading at the last `startProgressTimer`. */
    var startTime: int
    /** `setTimeout(() => goToNext(), 100)` calls not yet run, oldest first, each with
        the active index its `goToNext` closure captured. `clearTimer` never cancels them. */
    var pendingAdvances: seq<int>
    var effects: seq<Effect>

    /** Progress stays within one story's duration, and no frame runs while paused. */
    ghost predicate Valid()
      reads this
    {
      0 <= progress <= StoryDuration && (framePending ==> !isPaused)
    }

    /** The active index, and every index a pending advance captured, name a story. */
    ghost predicate InRange()
      reads this
    {
      0 <= activeIndex < |stories| &&
      forall k :: 0 <= k < |pendingAdvances| ==> 0 <= pendingAdvances[k] < |stories|
    }

    /** `startProgressTimer` has just run at clock `now`. */
    ghost predicate TimerRestarted(now: int)
      reads this
    {
      progress == 0 && framePending && startTime == now
    }

    /** The timer fields are as they were. */
    twostate predicate TimerKept()
      reads this
    {
      progress == old(progress) && framePending == old(framePending) && startTime == old(startTime)
    }

    /** `setActiveIndex(i)` has run at clock `now`: a set to the current index changes
        nothing; otherwise the view effect for `i` is logged and the timer effect runs,
        restarting the bar or, while paused, cancelling the frame. */
    twostate predicate MovedTo(i: int, now: int)
      reads this
    {
      activeIndex == i && isPaused == old(isPaused) &&
      if i == old(activeIndex) then
        effects == old(effects) && TimerKept()
      else
        effects == old(effects) + ViewEffects(stories, i) &&
        if isPaused then !framePending && progress == old(progress) && startTime == old(startTime)
        else TimerRestarted(now)
    }

    /** `onClose` has been called and nothing else on screen changed. */
    twostate predicate ClosedOnly()
      reads this
    {
      activeIndex == old(activeIndex) && isPaused == old(isPaused) &&
      effects == old(effects) + [Closed] && TimerKept()
    }

    /** The screen state after action `a` at clock `now`: `goToNext` moves forward or
        closes at the last story, `goToPrevious` moves back or closes at the first. */
    twostate predicate Performed(a: Action, now: int)
      reads this
    {
      match a
      case Nothing =>
        activeIndex == old(activeIndex) && isPaused == old(isPaused) && effects == old(effects) && TimerKept()
      case CloseViewer => ClosedOnly()
      case Next =>
        if old(activeIndex) < |stories| - 1 then MovedTo(old(activeIndex) + 1, now) else ClosedOnly()
      case Previous =>
        if old(activeIndex) > 0 then MovedTo(old(activeIndex) - 1, now) else ClosedOnly()
    }

    /** Mount with `currentIndex` at clock `now`: both effect hooks run once. */
    constructor (stories: seq<StoryService.Story>, currentIndex: int, now: int)
      ensures this.stories == stories && activeIndex == currentIndex
      ensures !isPaused && touchStart.None? && pendingAdvances == []
      ensures TimerRestarted(now)
      ensures effects == ViewEffects(stories, currentIndex)
      ensures Valid()
    {
      this.stories := stories;
      activeIndex := currentIndex;
      isPaused := false;
      touchStart := None;
      pendingAdvances := [];
      effects := ViewEffects(stories, currentIndex);
      progress := 0;
      framePending := true;
      startTime := now;
    }

    /** The story on screen; the component renders nothing when there is none. */
    function CurrentStory(): (s: Option<StoryService.Story>)
      reads this
      ensures s.Some? <==> 0 <= activeIndex < |stories|
      ensures s.Some? ==> s.value == stories[activeIndex]
    {
      if 0 <= activeIndex < |stories| then Some(stories[activeIndex]) else None
    }

    /** The fill of progress bar `index`, in milliseconds out of `StoryDuration`: bars
        before the active one are full, the active one shows `progress`, later ones
        are empty. */
    function BarFill(index: int): (w: int)
      reads this
      ensures index < activeIndex ==> w == StoryDuration
      ensures index == activeIndex ==> w == progress
      ensures index > activeIndex ==> w == 0
      ensures 0 <= progress <= StoryDuration ==> 0 <= w <= StoryDuration
    {
      if index == activeIndex then progress
      else if index < activeIndex then StoryDuration
      else 0
    }

    /** `setActiveIndex(i)` and the re-render it causes: React ignores a set to the
        current value; otherwise the view effect runs for the new index and the timer
        effect cancels the running frame and, unless paused, starts over at 0. */
    method SetActiveIndex(i: int, now: int)
      requires Valid()
      modifies this
      ensures Valid()
      ensures MovedTo(i, now)
      ensures touchStart == old(touchStart) && pendingAdvances == old(pendingAdvances)
    {
      if i != activeIndex {
        activeIndex := i;
        effects := effects + ViewEffects(stories, i);
        framePending := false;
        if !isPaused {
          progress := 0;
          startTime := now;
          framePending := true;
        }
      }
    }

    /** `goToNext` as seen by a closure that captured the active index `from`: move to
        `from + 1`, or call `onClose` when `from` is the last index (or beyond). */
    method GoToNextFrom(from: int, now: int)
      requires Valid()
      modifies this
      ensures Valid()
      ensures if from < |stories| - 1 then MovedTo(from + 1, now) else ClosedOnly()
      ensures touchStart == old(touchStart) && pendingAdvances == old(pendingAdvances)
    {
      if from < |stories| - 1 {
        SetActiveIndex(from + 1, now);
      } else {
        effects := effects + [Closed];
      }
    }

    /** `goToNext` from the current index (right tap zone, right arrow, space, left swipe). */
    method GoToNext(now: int)
      requires Valid()
      modifies this
      ensures Valid()
      ensures Performed(Next, now)
      ensures touchStart == old(touchStart) && pendingAdvances == old(pendingAdvances)
      ensures old(InRange()) ==> InRange()
      ensures old(activeIndex) < |stories| - 1 && 0 <= old(activeIndex) ==>
                effects == old(effects) + [MarkedViewed(stories[activeIndex].Id, CurrentViewer)]
      ensures old(activeIndex) < |stories| - 1 && !isPaused ==>
                BarFill(old(activeIndex)) == StoryDuration && BarFill(activeIndex) == 0
    {
      GoToNextFrom(activeIndex, now);
    }

    /** `goToPrevious` (left tap zone, left arrow, right swipe): move back one, or call
        `onClose` from the first index. */
    method GoToPrevious(now: int)
      requires Valid()
      modifies this
      ensures Valid()
      ensures Performed(Previous, now)
      ensures touchStart == old(touchStart) && pendingAdvances == old(pendingAdvances)
      ensures old(InRange()) ==> InRange()
      ensures 0 < old(activeIndex) < |stories| ==>
                effects == old(effects) + [MarkedViewed(stories[activeIndex].Id, CurrentViewer)]
    {
      if activeIndex > 0 {
        SetActiveIndex(activeIndex - 1, now);
      } else {
        effects := effects + [Closed];
      }
    }

    /** The close button: `onClose` every time it is pressed. */
    method Close()
      modifies this
      ensures ClosedOnly()
      ensures touchStart == old(touchStart) && pendingAdvances == old(pendingAdvances)
    {
      effects := effects + [Closed];
    }

    /** Run one action at clock `now`. */
    method Perform(a: Action, now: int)
      requires Valid()
      modifies this
      ensures Valid()
      ensures Performed(a, now)
      ensures touchStart == old(touchStart) && pendingAdvances == old(pendingAdvances)
      ensures old(InRange()) ==> InRange()
    {
      match a
      case Previous => GoToPrevious(now);
      case Next => GoToNext(now);
      case CloseViewer => Close();
      case Nothing =>
    }

    /** `handleKeyDown`: the bound key's action; an unbound key changes nothing. */
    method KeyDown(key: string, now: int)
      requires Valid()
      modifies this
      ensures Valid()
      ensures Performed(KeyAction(key), now)
      ensures touchStart == old(touchStart) && pendingAdvances == old(pendingAdvances)
      ensures old(InRange()) ==> InRange()
    {
      Perform(KeyAction(key), now);
    }

    /** `handleTouchStart`: remember where the finger went down. */
    method TouchStart(x: int)
      modifies this
      ensures touchStart == Some(x)
      ensures activeIndex == old(activeIndex) && isPaused == old(isPaused) && progress == old(progress)
      ensures framePending == old(framePending) && pendingAdvances == old(pendingAdvances)
      ensures effects == old(effects) && startTime == old(startTime)
    {
      touchStart := Some(x);
    }

    /** `handleTouchEnd`: a falsy start aborts and leaves the slot as it is; otherwise
        the swipe rule picks the move and the slot is cleared. */
    method TouchEnd(x: int, now: int)
      requires Valid()
      modifies this
      ensures Valid()
      ensures Performed(SwipeAction(old(touchStart), x), now)
      ensures pendingAdvances == old(pendingAdvances)
      ensures touchStart == if old(touchStart).None? || old(touchStart) == Some(0) then old(touchStart) else None
      ensures old(InRange()) ==> InRange()
    {
      if touchStart.None? || touchStart.value == 0 {
        return;
      }
      Perform(SwipeAction(touchStart, x), now);
      touchStart := None;
    }

    /** `startProgressTimer` or `clearTimer`, as the timer effect picks after `isPaused` changed. */
    method RunTimerEffect(now: int)
      requires 0 <= progress <= StoryDuration
      modifies this`progress, this`framePending, this`startTime
      ensures Valid()
      ensures !isPaused ==> TimerRestarted(now)
      ensures isPaused ==> !framePending && progress == old(progress) && startTime == old(startTime)
    {
      framePending := false;
      if !isPaused {
        progress := 0;
        startTime := now;
        framePending := true;
      }
    }

    /** The pause button: flip `isPaused`. Pausing cancels the frame and freezes the bar;
        resuming starts the timer again from 0 rather than from the frozen value. */
    method TogglePause(now: int)
      requires Valid()
      modifies this
      ensures Valid()
      ensures isPaused == !old(isPaused)
      ensures isPaused ==> !framePending && progress == old(progress) && startTime == old(startTime)
      ensures !isPaused ==> TimerRestarted(now)
      ensures activeIndex == old(activeIndex) && effects == old(effects)
      ensures pendingAdvances == old(pendingAdvances) && touchStart == old(touchStart)
    {
      isPaused := !isPaused;
      RunTimerEffect(now);
    }

    /** The media's `onLoad`/`onLoadedData`: `setIsPaused(false)`, which re-runs the
        timer effect only when the viewer was paused. */
    method MediaReady(now: int)
      requires Valid()
      modifies this
      ensures Valid()
      ensures !isPaused
      ensures old(isPaused) ==> TimerRestarted(now)
      ensures !old(isPaused) ==> progress == old(progress) && framePending == old(framePending) && startTime == old(startTime)
      ensures activeIndex == old(activeIndex) && effects == old(effects)
      ensures pendingAdvances == old(pendingAdvances) && touchStart == old(touchStart)
    {
      if isPaused {
        isPaused := false;
        RunTimerEffect(now);
      }
    }

    /** One animation frame of `updateProgress` at clock `now`. Below the duration the
        bar shows the elapsed time and another frame is requested; at or past it the bar
        is full, no frame is requested and one delayed `goToNext` is scheduled. */
    method Tick(now: int)
      requires Valid()
      requires now >= startTime
      modifies this
      ensures Valid()
      ensures old(InRange()) ==> InRange()
      ensures activeIndex == old(activeIndex) && isPaused == old(isPaused) && effects == old(effects)
      ensures touchStart == old(touchStart) && startTime == old(startTime)
      ensures !old(framePending) ==>
                progress == old(progress) && !framePending && pendingAdvances == old(pendingAdvances)
      ensures old(framePending) && now - startTime < StoryDuration ==>
                progress == now - startTime && framePending && pendingAdvances == old(pendingAdvances)
      ensures old(framePending) && now - startTime >= StoryDuration ==>
                progress == StoryDuration && !framePending &&
                pendingAdvances == old(pendingAdvances) + [activeIndex]
    {
      if framePending {
        var elapsed := now - startTime;
        if elapsed >= StoryDuration {
          progress := StoryDuration;
          framePending := false;
          pendingAdvances := pendingAdvances + [activeIndex];
        } else {
          progress := elapsed;
        }
      }
    }

    /** The oldest delayed `goToNext` fires, with the index its closure captured. */
    method FireAdvance(now: int)
      requires Valid()
      modifies this
      ensures Valid()
      ensures old(InRange()) ==> InRange()
      ensures touchStart == old(touchStart)
      ensures old(pendingAdvances) == [] ==>
                pendingAdvances == [] && activeIndex == old(activeIndex) && isPaused == old(isPaused) &&
                effects == old(effects) && TimerKept()
      ensures old(pendingAdvances) != [] ==>
                pendingAdvances == old(pendingAdvances)[1..] &&
                if old(pendingAdvances)[0] < |stories| - 1 then MovedTo(old(pendingAdvances)[0] + 1, now)
                else ClosedOnly()
    {
      if pendingAdvances != [] {
        var from := pendingAdvances[0];
        GoToNextFrom(from, now);
        pendingAdvances := pendingAdvances[1..];
      }
    }
  }

  /** Auto-advance over two stories: 5000 ms after opening on the first, the delayed
      `goToNext` shows the second, marks it viewed by viewer 1 and restarts its bar. */
  method AutoAdvance(first: StoryService.Story, second: StoryService.Story, t0: int) returns (v: StoryViewer)
    ensures v.activeIndex == 1 && v.progress == 0 && v.framePending && v.pendingAdvances == []
    ensures v.effects == [MarkedViewed(first.Id, CurrentViewer), MarkedViewed(second.Id, CurrentViewer)]
  {
    v := new StoryViewer([first, second], 0, t0);
    v.Tick(t0 + 2500);
    v.Tick(t0 + StoryDuration);
    v.FireAdvance(t0 + StoryDuration + 100);
  }
}
