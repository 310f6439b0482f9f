/**
 * The part of java.util.Date that Timespan relies on: a mutable holder of a
 * millisecond count since the epoch, with getTime/setTime, the constructor
 * Date(long), and the strict comparisons before and after.
 */
module Dates {

  /** Java's `long`: the millisecond count is a signed 64-bit value. */
  type Long = x: int | -0x8000_0000_0000_0000 <= x < 0x8000_0000_0000_0000

  class Date {
    /** Milliseconds since 1970-01-01T00:00:00Z. */
    var time: Long

    /** `new Date(long date)`: a Date for the given millisecond count. */
    constructor (date: Long)
      ensures time == date
    {
      time := date;
    }

    /** `getTime()`: the millisecond count, without changing anything. */
    method GetTime() returns (t: Long)
      ensures t == time
    {
      t := time;
    }

    /** `setTime(long)`: the one way a Date changes after construction. */
    method SetTime(date: Long)
      modifies this
      ensures time == date
    {
      time := date;
    }

    /** `before(when)`: this instant is strictly earlier than `when`. */
    predicate Before(when: Date)
      reads this, when
    {
      time < when.time
    }

    /** `after(when)`: this instant is strictly later than `when`. */
    predicate After(when: Date)
      reads this, when
    {
      time > when.time
    }
  }

  /**
   * The strict test `!start.after(end)` accepts exactly the pairs that the
   * non-strict `!end.before(start)` accepts: both admit equal instants,
   * and both mean `start.time <= end.time`.
   */
  lemma NotAfterIsNotBefore(start: Date, end: Date)
    ensures !start.After(end) <==> !end.Before(start)
    ensures !start.After(end) <==> start.time <= end.time
    ensures start.time == end.time ==> !start.After(end) && !end.Before(start)
  {
  }
}
