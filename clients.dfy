/**
 * Callers of Timespan. Each method builds its own Dates, uses the public
 * operations only and reports what it observes; the contracts say that the
 * observations are those of an immutable interval.
 */
module TimespanClients {
  import opened Dates
  import opened Timespans

  /** 2024-01-01T00:00:00Z in milliseconds since the epoch. */
  const Jan1st2024: Long := 1_704_067_200_000
  /** 2024-12-31T23:59:00Z in milliseconds since the epoch. */
  const Dec31st2024At2359: Long := 1_735_689_540_000

  /**
   * Checked construction from two fresh Dates: accepted exactly when
   * `t0 <= t1` (equal instants included), and then the accessors report
   * the two values given.
   */
  method Construct(t0: Long, t1: Long) returns (accepted: bool, s: Long, e: Long)
    ensures accepted <==> t0 <= t1
    ensures accepted ==> s == t0 && e == t1
  {
    var a := new Date(t0);
    var b := new Date(t1);
    var r := Timespan.Create(a, b);
    accepted, s, e := false, 0, 0;
    if r.Success? {
      var ds := r.value.GetStart();
      var de := r.value.GetEnd();
      accepted := true;
      s := ds.GetTime();
      e := de.GetTime();
    }
  }

  /**
   * Copy-in: the caller mutates its own argument Dates after construction,
   * even into an out-of-order pair; the Timespan's endpoints and its rep
   * invariant are unaffected.
   */
  method MutateArguments(t0: Long, t1: Long, u0: Long, u1: Long)
    returns (valid: bool, s: Long, e: Long)
    requires t0 <= t1
    ensures valid && s == t0 && e == t1
  {
    var a := new Date(t0);
    var b := new Date(t1);
    var ts := new Timespan(a, b);
    a.SetTime(u0);
    b.SetTime(u1);
    valid := ts.Valid();
    var ds := ts.GetStart();
    var de := ts.GetEnd();
    s := ds.GetTime();
    e := de.GetTime();
  }

  /**
   * Copy-out: the caller mutates what getStart and getEnd returned; the next
   * calls return the original instants, and the rep invariant still holds.
   */
  method MutateReturned(t0: Long, t1: Long, u0: Long, u1: Long)
    returns (valid: bool, s: Long, e: Long)
    requires t0 <= t1
    ensures valid && s == t0 && e == t1
  {
    var a := new Date(t0);
    var b := new Date(t1);
    var ts := new Timespan(a, b);
    var ds := ts.GetStart();
    var de := ts.GetEnd();
    ds.SetTime(u0);
    de.SetTime(u1);
    valid := ts.Valid();
    ds := ts.GetStart();
    de := ts.GetEnd();
    s := ds.GetTime();
    e := de.GetTime();
  }

  /**
   * Passing the same Date object as both endpoints: a zero-length interval,
   * accepted, and still intact after that one Date is mutated.
   */
  method SameDateTwice(t: Long, u: Long) returns (accepted: bool, s: Long, e: Long)
    ensures accepted && s == t && e == t
  {
    var a := new Date(t);
    var r := Timespan.Create(a, a);
    accepted, s, e := false, 0, 0;
    if r.Success? {
      a.SetTime(u);
      var ds := r.value.GetStart();
      var de := r.value.GetEnd();
      accepted := true;
      s := ds.GetTime();
      e := de.GetTime();
    }
  }

  /**
   * Three calendar cases: a zero-length interval at 2024-01-01 00:00 and
   * the whole of 2024 up to 23:59 on December 31 are accepted; the same two
   * instants in the wrong order are rejected.
   */
  method CalendarScenarios() returns (zeroLength: bool, wholeYear: bool, reversed: bool)
    ensures zeroLength && wholeYear && !reversed
  {
    var s, e;
    zeroLength, s, e := Construct(Jan1st2024, Jan1st2024);
    wholeYear, s, e := Construct(Jan1st2024, Dec31st2024At2359);
    reversed, s, e := Construct(Dec31st2024At2359, Jan1st2024);
  }
}
