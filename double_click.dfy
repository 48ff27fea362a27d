/** `useDoubleClick`: tells a single click from a double click with one pending
    timeout held in `clickTimeoutRef.current`. The timer is abstract: `Expire` is the
    moment the pending timeout runs. */
module DoubleClickHook {
  import opened Wrappers

  /** A callback fired, with the click arguments it received. */
  datatype Fired<A> = SingleClick(args: A) | DoubleClick(args: A)

  /** A live `setTimeout`: its id and the arguments its callback closed over. */
  datatype Timeout<A> = Timeout(id: nat, args: A)

  class DoubleClickDetector<A> {
    const hasOnDoubleClick: bool
    const hasOnSingleClick: bool
    /** `clickTimeoutRef.current`: the id of the timeout set by the last lone click. */
    var current: Option<nat>
    /** Every timeout scheduled and neither cancelled nor run yet. */
    var timeouts: seq<Timeout<A>>
    /** Next id `setTimeout` hands out; ids start at 1 and are truthy. */
    var nextId: nat
    var fired: seq<Fired<A>>

    /** The slot names the only live timeout, if any: at most one is ever pending. */
    ghost predicate Valid()
      reads this
    {
      nextId >= 1 &&
      (current.None? ==> timeouts == []) &&
      (current.Some? ==> |timeouts| == 1 && timeouts[0].id == current.value && 1 <= current.value < nextId)
    }

    ghost predicate Idle()
      reads this
    {
      current.None?
    }

    constructor (hasOnDoubleClick: bool, hasOnSingleClick: bool)
      ensures this.hasOnDoubleClick == hasOnDoubleClick && this.hasOnSingleClick == hasOnSingleClick
      ensures Valid() && Idle() && fired == []
    {
      this.hasOnDoubleClick := hasOnDoubleClick;
      this.hasOnSingleClick := hasOnSingleClick;
      current := None;
      timeouts := [];
      nextId := 1;
      fired := [];
    }

    /** `handleClick(args)`. With a timeout pending: cancel it, clear the slot and fire
        `onDoubleClick(args)`. Otherwise: schedule a timeout for these arguments and
        fire nothing yet. */
    method Click(args: A)
      requires Valid()
      modifies this
      ensures Valid()
      ensures old(current).Some? ==>
                Idle() && fired == old(fired) + (if hasOnDoubleClick then [DoubleClick(args)] else [])
      ensures old(current).None? ==>
                current.Some? && timeouts == [Timeout(current.value, args)] && fired == old(fired)
    {
      if current.Some? {
        timeouts := [];
        current := None;
        if hasOnDoubleClick {
          fired := fired + [DoubleClick(args)];
        }
      } else {
        var id := nextId;
        nextId := nextId + 1;
        timeouts := timeouts + [Timeout(id, args)];
        current := Some(id);
      }
    }

    /** The pending timeout runs: clear the slot and fire `onSingleClick` with the
        arguments of the click that scheduled it. With nothing pending nothing happens. */
    method Expire()
      requires Valid()
      modifies this
      ensures Valid() && Idle()
      ensures old(current).Some? ==>
                fired == old(fired) + (if hasOnSingleClick then [SingleClick(old(timeouts)[0].args)] else [])
      ensures old(current).None? ==> fired == old(fired) && timeouts == old(timeouts)
    {
      if current.Some? {
        var args := timeouts[0].args;
        timeouts := [];
        current := None;
        if hasOnSingleClick {
          fired := fired + [SingleClick(args)];
        }
      }
    }
  }

  /** Two clicks from idle before the timeout runs fire `onDoubleClick` once with the
      second click's arguments, never `onSingleClick`, and leave the detector idle so
      that the next click starts a fresh timeout. */
  method ClickPair<A>(d: DoubleClickDetector<A>, first: A, second: A)
    requires d.Valid() && d.Idle()
    modifies d
    ensures d.Valid() && d.Idle() && d.timeouts == []
    ensures d.fired == old(d.fired) + (if d.hasOnDoubleClick then [DoubleClick(second)] else [])
  {
    d.Click(first);
    d.Click(second);
  }
}
