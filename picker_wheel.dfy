/** The scroll wheel defined inside ModalDatePicker.tsx (the one the dialog
    renders). It keeps one flag, set while the pointer or finger is down;
    scroll events count only while it is set, and releasing snaps to the
    nearest item. The gesture listeners are registered once, at mount, so
    the snap they run compares against the options and value of the first
    render. The container is modelled as always present while the wheel
    exists. */
module PickerWheel {
  import opened Wrappers
  import opened WheelIndex

  /** Two padding entries above and two below the options. */
  const PaddingItems: nat := 2

  /** `extendedOptions`: the options with sentinel padding on both ends. */
  function Extended(options: seq<int>): (r: seq<int>)
    ensures |r| == |options| + 2 * PaddingItems
    ensures forall i :: 0 <= i < |r| ==>
      r[i] == if PaddingItems <= i < PaddingItems + |options| then options[i - PaddingItems] else Sentinel
  {
    [Sentinel, Sentinel] + options + [Sentinel, Sentinel]
  }

  class Wheel {
    var options: seq<int>
    var value: int
    const itemHeight: Height
    var scrollTop: int
    var userScrolling: bool
    /** The options and value the mount-time listeners captured. */
    const listenerOptions: seq<int>
    const listenerValue: int

    /** Mounting: the position starts at 0 and the value effect scrolls to
        the value's item. */
    constructor (options: seq<int>, value: int, itemHeight: Height)
      ensures this.options == options && this.value == value && this.itemHeight == itemHeight
      ensures listenerOptions == options && listenerValue == value
      ensures !userScrolling
      ensures scrollTop == if value in options then FindIndex(options, value) * itemHeight else 0
    {
      this.options, this.value, this.itemHeight := options, value, itemHeight;
      listenerOptions, listenerValue := options, value;
      scrollTop, userScrolling := 0, false;
      new;
      ScrollToValue(value);
    }

    /** scrollToValue: moves to the target's item only when the target is
        one of the options (smooth or not, the resting offset is the same). */
    method ScrollToValue(target: int)
      modifies this`scrollTop
      ensures scrollTop == if target in options then FindIndex(options, target) * itemHeight
                           else old(scrollTop)
    {
      var index := FindIndex(options, target);
      if index != -1 {
        scrollTop := index * itemHeight;
      }
    }

    /** handleScroll after the container moved to `offset`: ignored unless the
        user-scrolling flag is set; otherwise reports the option at
        `round(offset / itemHeight)` (no clamp in this wheel). */
    method HandleScroll(offset: int) returns (change: Option<int>)
      modifies this`scrollTop
      ensures scrollTop == offset
      ensures change == if userScrolling then ChangeAt(options, Round(offset, itemHeight), value) else None
    {
      scrollTop := offset;
      change := None;
      if !userScrolling {
        return;
      }
      var index := Round(scrollTop, itemHeight);
      change := ChangeAt(options, index, value);
    }

    /** snapToNearestItem, as the closure of a render with `opts` and `current`:
        scrolls to the nearest item's offset and reports that item's option. */
    method SnapToNearestItem(opts: seq<int>, current: int) returns (change: Option<int>)
      modifies this`scrollTop
      ensures scrollTop == Round(old(scrollTop), itemHeight) * itemHeight
      ensures change == ChangeAt(opts, Round(old(scrollTop), itemHeight), current)
    {
      var index := Round(scrollTop, itemHeight);
      scrollTop := index * itemHeight;
      change := ChangeAt(opts, index, current);
    }

    /** touchstart / mousedown. */
    method InteractionStart()
      modifies this`userScrolling
      ensures userScrolling
    {
      userScrolling := true;
    }

    /** touchend / mouseup / mouseleave: snaps only if an interaction was in
        progress, and clears the flag. The snap is the mount-time closure's. */
    method InteractionEnd() returns (change: Option<int>)
      modifies this`scrollTop, this`userScrolling
      ensures !userScrolling
      ensures old(userScrolling) ==>
        scrollTop == Round(old(scrollTop), itemHeight) * itemHeight
        && change == ChangeAt(listenerOptions, Round(old(scrollTop), itemHeight), listenerValue)
      ensures !old(userScrolling) ==> scrollTop == old(scrollTop) && change == None
    {
      change := None;
      if userScrolling {
        change := SnapToNearestItem(listenerOptions, listenerValue);
        userScrolling := false;
      }
    }

    /** A click on item i of the padded list: a real option is reported (even
        if it is the current value) and scrolled to; padding does nothing. */
    method ClickItem(i: nat) returns (change: Option<int>)
      requires i < |Extended(options)|
      modifies this`scrollTop, this`userScrolling
      ensures var v := Extended(options)[i];
        if v == Sentinel then change == None && scrollTop == old(scrollTop)
                              && userScrolling == old(userScrolling)
        else change == Some(v) && !userScrolling && v in options
             && scrollTop == FindIndex(options, v) * itemHeight
    {
      var v := Extended(options)[i];
      change := None;
      if v != Sentinel {
        assert v == options[i - PaddingItems];
        userScrolling := false;
        change := Some(v);
        ScrollToValue(v);
      }
    }

    /** A render with new props; the value effect (`[value]` dependency) runs
        only when the value changed. */
    method Rerender(newOptions: seq<int>, newValue: int)
      modifies this`options, this`value, this`scrollTop
      ensures options == newOptions && value == newValue
      ensures old(value) == newValue ==> scrollTop == old(scrollTop)
      ensures old(value) != newValue ==>
        scrollTop == if newValue in newOptions then FindIndex(newOptions, newValue) * itemHeight
                     else old(scrollTop)
    {
      var changed := value != newValue;
      options, value := newOptions, newValue;
      if changed {
        ScrollToValue(newValue);
      }
    }
  }

  /** Even without a programmatic-scroll flag the dialog's wheel has no
      feedback loop: the scroll event caused by re-positioning to a new
      value reports nothing, during an interaction or not. */
  method RepositionEchoIsSilent(w: Wheel, newOptions: seq<int>, newValue: int)
    returns (change: Option<int>)
    requires newValue in newOptions && w.value != newValue
    modifies w
    ensures change == None
    ensures w.scrollTop == FindIndex(newOptions, newValue) * w.itemHeight
  {
    w.Rerender(newOptions, newValue);
    RoundOfMultiple(FindIndex(newOptions, newValue), w.itemHeight);
    change := w.HandleScroll(w.scrollTop);
  }

  /** The release snap compares with the mount-time value: a gesture that
      ends on that value's item reports nothing, even when the dialog has
      since moved the wheel's value elsewhere. */
  method ReleaseComparesWithMountValue(w: Wheel) returns (change: Option<int>)
    requires w.userScrolling && w.listenerValue in w.listenerOptions
    requires w.scrollTop == FindIndex(w.listenerOptions, w.listenerValue) * w.itemHeight
    modifies w
    ensures change == None && !w.userScrolling
  {
    RoundOfMultiple(FindIndex(w.listenerOptions, w.listenerValue), w.itemHeight);
    change := w.InteractionEnd();
  }
}
