/**
 * Timespan: an immutable closed interval [start, end] of instants, both
 * endpoints included. Its two endpoints are Date objects, which are mutable,
 * so the type copies them on the way in and on the way out.
 */
module Timespans {
  import opened Dates

  /** The exception the constructor throws for an out-of-order pair. */
  datatype Error = IllegalArgument(message: string)

  /** The message the constructor's exception carries. */
  const OutOfOrderMessage: string := "requires start <= end"

  /** Either a constructed Timespan or the exception thrown instead. */
  datatype Result<T> = Success(value: T) | Failure(error: Error)

  class Timespan {
    /** `private final Date start`: a private copy, never handed out. */
    const start: Date
    /** `private final Date end`: a private copy, never handed out. */
    const end: Date

    /** The rep invariant `checkRep`: end is not strictly before start. */
    predicate Valid()
      reads start, end
    {
      !end.Before(start)
    }

    /**
     * Abstraction function: the instants the interval stands for, from
     * start to end with both endpoints included.
     */
    predicate Includes(t: int)
      reads start, end
    {
      start.time <= t <= end.time
    }

    /**
     * The constructor once its argument check has passed: it stores fresh
     * copies of the two arguments, so no Date the caller holds is shared.
     */
    constructor (start: Date, end: Date)
      requires !start.After(end)
      ensures Valid()
      ensures this.start.time == start.time && this.end.time == end.time
      ensures fresh(this.start) && fresh(this.end) && this.start != this.end
    {
      var s := start.GetTime();
      var e := end.GetTime();
      this.start := new Date(s);
      this.end := new Date(e);
    }

    /**
     * `new Timespan(start, end)` as the caller sees it: rejected with
     * IllegalArgumentException exactly when start is after end; otherwise a
     * new Timespan holding fresh copies with the same millisecond values.
     * The arguments are left as they were.
     */
    static method Create(start: Date, end: Date) returns (r: Result<Timespan>)
      ensures r.Failure? <==> start.After(end)
      ensures r.Failure? ==> r.error == IllegalArgument(OutOfOrderMessage)
      ensures r.Success? ==>
        && fresh(r.value) && fresh(r.value.start) && fresh(r.value.end)
        && r.value.start != r.value.end
        && r.value.Valid()
        && r.value.start.time == start.time && r.value.end.time == end.time
      ensures unchanged(start, end)
    {
      if start.After(end) {
        return Failure(IllegalArgument(OutOfOrderMessage));
      }
      var t := new Timespan(start, end);
      return Success(t);
    }

    /** `getStart()`: a new Date with the start instant; the rep stays private. */
    method GetStart() returns (d: Date)
      ensures fresh(d) && d.time == start.time
    {
      var t := start.GetTime();
      d := new Date(t);
    }

    /** `getEnd()`: a new Date with the end instant; the rep stays private. */
    method GetEnd() returns (d: Date)
      ensures fresh(d) && d.time == end.time
    {
      var t := end.GetTime();
      d := new Date(t);
    }
  }

  /** A valid Timespan is never empty: it includes both of its endpoints. */
  lemma IncludesEndpoints(ts: Timespan)
    requires ts.Valid()
    ensures ts.Includes(ts.start.time) && ts.Includes(ts.end.time)
  {
  }

  /** A zero-length Timespan stands for exactly one instant. */
  lemma ZeroLengthIsSingleInstant(ts: Timespan, t: int)
    requires ts.start.time == ts.end.time
    ensures ts.Valid()
    ensures ts.Includes(t) <==> t == ts.start.time
  {
  }

  /**
   * The abstraction function is one-to-one on valid reps: two Timespans
   * that stand for the same set of instants have the same endpoints.
   */
  lemma AbstractionDeterminesRep(a: Timespan, b: Timespan)
    requires a.Valid() && b.Valid()
    requires forall t :: a.Includes(t) <==> b.Includes(t)
    ensures a.start.time == b.start.time && a.end.time == b.end.time
  {
    assert a.Includes(a.start.time) && a.Includes(a.end.time);
    assert b.Includes(b.start.time) && b.Includes(b.end.time);
  }
}
