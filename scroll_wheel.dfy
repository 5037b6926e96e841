/** ScrollWheel.tsx: the stand-alone wheel with two guard flags, one for a
    gesture in progress and one for a scroll the wheel caused itself.
    Timers are explicit: the debounce timer kept in `scrollTimeoutRef` (one
    at most, cancellable), the 250 ms settle callbacks of interaction end
    and the callbacks that clear the programmatic flag (neither is stored,
    so any number may be pending and none can be cancelled). Each timer
    firing is an event whose callback re-checks the flags. A callback runs
    the closures of the render that scheduled it, so a settle callback
    carries the props it captured. Smooth-scroll animation is abstracted to
    its resting offset. */
module ScrollWheel {
  import opened Wrappers
  import opened WheelIndex

  /** One padding entry above and one below the options. */
  const PaddingItems: nat := 1

  /** `extendedOptions`: the options with sentinel padding on both ends. */
  function Extended(options: seq<int>): (r: seq<int>)
    ensures |r| == |options| + 2 * PaddingItems
    ensures forall i :: 0 <= i < |r| ==>
      r[i] == if PaddingItems <= i < PaddingItems + |options| then options[i - PaddingItems] else Sentinel
  {
    [Sentinel] + options + [Sentinel]
  }

  /** The props a closure captured: the options and the current value. */
  datatype Props = Props(options: seq<int>, value: int)

  /** The offset a snap with props `p` aims for from `offset`. */
  function TargetOf(p: Props, offset: int, itemHeight: Height): int {
    SnapTarget(offset, itemHeight, |p.options|)
  }

  class Wheel {
    var options: seq<int>
    var value: int
    const itemHeight: Height
    var scrollTop: int
    /** isUserInteractingRef */
    var interacting: bool
    /** isProgrammaticScrollRef */
    var programmatic: bool
    /** lastScrollTimeRef: the clock reading of the last handled scroll, in ms */
    var lastScrollTime: int
    /** a live timer in scrollTimeoutRef; it was scheduled under the current
        props, since every props update cancels it */
    var debouncePending: bool
    /** pending 250 ms callbacks scheduled by interaction end, oldest first,
        each with the props its `snapToNearestItem` closure captured */
    var settleTimers: seq<Props>
    /** pending callbacks that clear the programmatic flag */
    var resetTimers: nat
    /** containerRef.current is set: between mount and cleanup */
    var mounted: bool

    /** A raised programmatic flag always has a reset callback pending, so
        the suppression of scroll events ends. */
    predicate ResetPending()
      reads this
    {
      programmatic ==> resetTimers > 0
    }

    /** The props of the current render. */
    function Current(): Props
      reads this
    {
      Props(options, value)
    }

    /** What snapToNearestItem with the props `p` of its render does: nothing
        while unmounted or while either flag is set; otherwise a smooth
        scroll to the nearest item's offset (raising the programmatic flag
        and scheduling its reset) when the offset is more than 2 away from
        it, and the change the item at that offset reports against `p`. */
    twostate predicate Snapped(p: Props, new change: Option<int>)
      reads this
    {
      var t := TargetOf(p, old(scrollTop), itemHeight);
      if old(!mounted || programmatic || interacting) then
        change == None && scrollTop == old(scrollTop)
        && programmatic == old(programmatic) && resetTimers == old(resetTimers)
      else
        change == ChangeAt(p.options, ResolveIndex(old(scrollTop), itemHeight, |p.options|), p.value)
        && if NeedsSnap(old(scrollTop), t)
           then scrollTop == t && programmatic && resetTimers == old(resetTimers) + 1
           else scrollTop == old(scrollTop) && programmatic == old(programmatic)
                && resetTimers == old(resetTimers)
    }

    /** What scrollToValue does: when mounted and the target is an option,
        raise the programmatic flag, move to the target's item and schedule
        the flag's reset; otherwise nothing. */
    twostate predicate ScrolledTo(target: int)
      reads this
    {
      if old(mounted) && target in old(options) then
        scrollTop == FindIndex(old(options), target) * itemHeight && programmatic
        && resetTimers == old(resetTimers) + 1
      else
        scrollTop == old(scrollTop) && programmatic == old(programmatic)
        && resetTimers == old(resetTimers)
    }

    /** Mounting: no flag set, no timer pending; the value effect then
        scrolls to the value. */
    constructor (options: seq<int>, value: int, itemHeight: Height)
      ensures this.options == options && this.value == value && this.itemHeight == itemHeight
      ensures mounted && !interacting && !debouncePending && settleTimers == []
      ensures value in options ==>
        scrollTop == FindIndex(options, value) * itemHeight && programmatic && resetTimers == 1
      ensures value !in options ==> scrollTop == 0 && !programmatic && resetTimers == 0
      ensures ResetPending()
    {
      this.options, this.value, this.itemHeight := options, value, itemHeight;
      scrollTop, interacting, programmatic, lastScrollTime := 0, false, false, 0;
      debouncePending, settleTimers, resetTimers, mounted := false, [], 0, true;
      new;
      ScrollToValue(value);
    }

    /** scrollToValue (smooth or not: only the reset delay differs). */
    method ScrollToValue(target: int)
      modifies this`scrollTop, this`programmatic, this`resetTimers
      ensures ScrolledTo(target)
      ensures old(ResetPending()) ==> ResetPending()
    {
      var index := FindIndex(options, target);
      if index != -1 && mounted {
        programmatic := true;
        scrollTop := index * itemHeight;
        resetTimers := resetTimers + 1;
      }
    }

    /** snapToNearestItem, as the closure of a render with props `p`. */
    method SnapToNearestItem(p: Props) returns (change: Option<int>)
      modifies this`scrollTop, this`programmatic, this`resetTimers
      ensures Snapped(p, change)
      ensures old(ResetPending()) ==> ResetPending()
    {
      change := None;
      if !mounted || programmatic || interacting {
        return;
      }
      var offset := scrollTop;
      var clampedIndex := ResolveIndex(offset, itemHeight, |p.options|);
      var snapScrollTop := clampedIndex * itemHeight;
      assert snapScrollTop == TargetOf(p, offset, itemHeight);
      if NeedsSnap(offset, snapScrollTop) {
        programmatic := true;
        scrollTop := snapScrollTop;
        resetTimers := resetTimers + 1;
      }
      change := ChangeAt(p.options, ResolveIndex(snapScrollTop, itemHeight, |p.options|), p.value);
    }

    /** handleScroll after the container moved to `offset`, at clock reading
        `now`: ignored while the programmatic flag is set; otherwise the time
        is recorded, the pending debounce timer is cancelled, the option at
        the offset is reported, and outside an interaction a new debounce
        timer is scheduled. */
    method Scroll(offset: int, now: int) returns (change: Option<int>)
      modifies this`scrollTop, this`debouncePending, this`lastScrollTime
      ensures scrollTop == offset
      ensures !mounted || programmatic ==>
        change == None && debouncePending == old(debouncePending) && lastScrollTime == old(lastScrollTime)
      ensures mounted && !programmatic ==>
        change == ChangeAt(options, ResolveIndex(offset, itemHeight, |options|), value)
        && debouncePending == !interacting && lastScrollTime == now
      ensures old(ResetPending()) ==> ResetPending()
    {
      scrollTop := offset;
      change := None;
      if !mounted || programmatic {
        return;
      }
      lastScrollTime := now;
      debouncePending := false;
      change := ChangeAt(options, ResolveIndex(scrollTop, itemHeight, |options|), value);
      if interacting {
        return;
      }
      debouncePending := true;
    }

    /** touchstart / mousedown: the flag is raised and the debounce timer
        cancelled. Pending settle callbacks are not cancelled. */
    method InteractionStart()
      requires mounted
      modifies this`interacting, this`debouncePending
      ensures interacting && !debouncePending
      ensures old(ResetPending()) ==> ResetPending()
    {
      interacting := true;
      debouncePending := false;
    }

    /** touchend / mouseup / mouseleave: the flag is cleared and a settle
        callback scheduled with the current props. */
    method InteractionEnd()
      requires mounted
      modifies this`interacting, this`settleTimers
      ensures !interacting && settleTimers == old(settleTimers) + [Current()]
      ensures old(ResetPending()) ==> ResetPending()
    {
      interacting := false;
      settleTimers := settleTimers + [Current()];
    }

    /** touchcancel behaves as interaction end. */
    method TouchCancel()
      requires mounted
      modifies this`interacting, this`settleTimers
      ensures !interacting && settleTimers == old(settleTimers) + [Current()]
      ensures old(ResetPending()) ==> ResetPending()
    {
      InteractionEnd();
    }

    /** The debounce timer fires at clock reading `now`. The callback snaps
        only outside an interaction and more than 100 ms after the last
        handled scroll. */
    method FireDebounceTimer(now: int) returns (change: Option<int>)
      requires debouncePending
      modifies this`debouncePending, this`scrollTop, this`programmatic, this`resetTimers
      ensures !debouncePending
      ensures !interacting && now - lastScrollTime > 100 ==> Snapped(Current(), change)
      ensures interacting || now - lastScrollTime <= 100 ==>
        change == None && scrollTop == old(scrollTop)
        && programmatic == old(programmatic) && resetTimers == old(resetTimers)
      ensures old(ResetPending()) ==> ResetPending()
    {
      debouncePending := false;
      change := None;
      if !interacting && now - lastScrollTime > 100 {
        change := SnapToNearestItem(Current());
      }
    }

    /** The oldest settle callback fires (all have the same delay): it snaps
        with the props it captured, unless an interaction is in progress at
        that moment (snapToNearestItem re-checks both flags). */
    method FireSettleTimer() returns (change: Option<int>)
      requires settleTimers != []
      modifies this`settleTimers, this`scrollTop, this`programmatic, this`resetTimers
      ensures settleTimers == old(settleTimers[1..])
      ensures Snapped(old(settleTimers[0]), change)
      ensures old(ResetPending()) ==> ResetPending()
    {
      var captured := settleTimers[0];
      settleTimers := settleTimers[1..];
      change := None;
      if !interacting {
        change := SnapToNearestItem(captured);
      }
    }

    /** A reset callback fires: the programmatic flag is cleared, whichever
        programmatic scroll scheduled it. */
    method FireResetTimer()
      requires resetTimers > 0
      modifies this`resetTimers, this`programmatic
      ensures resetTimers == old(resetTimers) - 1 && !programmatic
      ensures old(ResetPending()) ==> ResetPending()
    {
      resetTimers := resetTimers - 1;
      programmatic := false;
    }

    /** A render with new props. The handlers get new identities, so the
        listener effect re-runs and its cleanup clears the debounce timer;
        the value effect re-positions the wheel only when neither flag is
        set. */
    method ExternalValueChange(newOptions: seq<int>, newValue: int)
      modifies this`options, this`value, this`scrollTop, this`programmatic, this`resetTimers,
               this`debouncePending
      ensures options == newOptions && value == newValue && !debouncePending
      ensures old(interacting || programmatic) ==>
        scrollTop == old(scrollTop) && programmatic == old(programmatic)
        && resetTimers == old(resetTimers)
      ensures !old(interacting || programmatic) ==>
        if mounted && newValue in newOptions then
          scrollTop == FindIndex(newOptions, newValue) * itemHeight && programmatic
          && resetTimers == old(resetTimers) + 1
        else
          scrollTop == old(scrollTop) && programmatic == old(programmatic)
          && resetTimers == old(resetTimers)
      ensures old(ResetPending()) ==> ResetPending()
    {
      options, value := newOptions, newValue;
      debouncePending := false;
      if !interacting && !programmatic {
        ScrollToValue(newValue);
      }
    }

    /** A click on item i of the padded list: a real option is reported (even
        if it is the current value) and scrolled to smoothly; padding does
        nothing. */
    method ClickItem(i: nat) returns (change: Option<int>)
      requires mounted && i < |Extended(options)|
      modifies this`interacting, this`scrollTop, this`programmatic, this`resetTimers
      ensures var v := Extended(options)[i];
        if v == Sentinel then
          change == None && interacting == old(interacting) && scrollTop == old(scrollTop)
          && programmatic == old(programmatic) && resetTimers == old(resetTimers)
        else
          change == Some(v) && !interacting && v in options
          && scrollTop == FindIndex(options, v) * itemHeight && programmatic
          && resetTimers == old(resetTimers) + 1
      ensures old(ResetPending()) ==> ResetPending()
    {
      var v := Extended(options)[i];
      change := None;
      if v != Sentinel {
        assert v == options[i - PaddingItems];
        interacting := false;
        change := Some(v);
        ScrollToValue(v);
      }
    }

    /** Cleanup at unmount: the container goes away and the debounce timer is
        cleared; settle and reset callbacks stay pending. */
    method Unmount()
      requires mounted
      modifies this`mounted, this`debouncePending
      ensures !mounted && !debouncePending
      ensures old(ResetPending()) ==> ResetPending()
    {
      mounted := false;
      debouncePending := false;
    }
  }

  /** A settle callback scheduled by an interaction end does nothing when a
      new interaction has started before it fires. */
  method NewInteractionDefeatsSettle(w: Wheel) returns (change: Option<int>)
    requires w.mounted
    modifies w
    ensures change == None && w.scrollTop == old(w.scrollTop) && w.interacting
  {
    w.InteractionEnd();
    w.InteractionStart();
    change := w.FireSettleTimer();
  }

  /** The settle callback re-checks only the gesture flag: once a later
      gesture has also ended, the earlier callback still snaps, and it
      reports against the props it captured, not those of the render in
      which the later gesture ended. */
  method StaleSettleAfterSecondRelease(w: Wheel, newOptions: seq<int>, newValue: int)
    returns (change: Option<int>)
    requires w.mounted && !w.programmatic && !w.interacting && w.settleTimers == []
    modifies w
    ensures change == ChangeAt(old(w.options), ResolveIndex(old(w.scrollTop), w.itemHeight, |old(w.options)|),
                               old(w.value))
    ensures w.options == newOptions && w.value == newValue && w.settleTimers == [w.Current()]
  {
    w.InteractionEnd();
    w.InteractionStart();
    w.ExternalValueChange(newOptions, newValue);
    w.InteractionEnd();
    change := w.FireSettleTimer();
  }

  /** The full programmatic cycle reports nothing: re-positioning to a new
      value, its scroll event (whether or not the flag's reset already ran),
      and the debounce timer that event may schedule, whenever it fires. */
  method ProgrammaticCycleIsSilent(w: Wheel, newOptions: seq<int>, newValue: int, resetFirst: bool,
                                   now: int, later: int)
    returns (c1: Option<int>, c2: Option<int>)
    requires w.mounted && !w.interacting && !w.programmatic && newValue in newOptions
    modifies w
    ensures c1 == None && c2 == None
    ensures w.scrollTop == FindIndex(newOptions, newValue) * w.itemHeight
  {
    w.ExternalValueChange(newOptions, newValue);
    if resetFirst {
      w.FireResetTimer();
    }
    NoEchoAtValue(newOptions, newValue, w.itemHeight);
    c1 := w.Scroll(w.scrollTop, now);
    c2 := None;
    if w.debouncePending {
      ResolveRoundTrip(FindIndex(newOptions, newValue), w.itemHeight, |newOptions|);
      c2 := w.FireDebounceTimer(later);
    }
  }

  /** After unmount no callback moves the wheel or reports a change. */
  method NothingAfterUnmount(w: Wheel) returns (change: Option<int>)
    requires w.mounted && w.settleTimers != []
    modifies w
    ensures change == None && w.scrollTop == old(w.scrollTop)
  {
    w.Unmount();
    change := w.FireSettleTimer();
  }
}
