# Timespan

A model of `Timespan`, an immutable closed time interval `[start, end]` that
includes both endpoints. Its two endpoints are `java.util.Date` objects, and a
`Date` is mutable, so `Timespan` copies each endpoint when it is constructed
(copy-in) and again every time an accessor hands one out (copy-out).

- `dates.dfy`, module `Dates`: the part of `java.util.Date` that `Timespan`
  uses. `Date` is a class with one mutable field `time`, the millisecond
  count, typed as Java's signed 64-bit `long`. It has the constructor
  `Date(long)`, `getTime`, `setTime` and the strict comparisons `before` and
  `after`. `java.util.Date` is a JDK class; its behaviour is taken from its
  documented contract: `before` and `after` compare millisecond counts
  strictly.
- `timespan.dfy`, module `Timespans`: the class `Timespan`. Its fields
  `start` and `end` are `private final`, so they are `const` fields here.
  `Valid()` is the rep invariant `checkRep` (`!end.before(start)`), and
  `Includes(t)` is the abstraction function (the instants from start to end,
  endpoints included). The constructor has two forms:
  - `Timespan.constructor` covers the path where the argument check passes.
  - `Timespan.Create` is the call as a caller sees it. It returns
    `Failure(IllegalArgument("requires start <= end"))` where the source
    throws, and `Success` with a new object otherwise.
- `clients.dfy`, module `TimespanClients`: callers that build their own
  `Date`s and use only the public operations. Their contracts state what a
  caller observes: acceptance exactly for ordered pairs, endpoints equal in
  value to the arguments, and no effect from mutating the argument `Date`s or
  the returned `Date`s afterwards.

The guarantees against aliasing appear in the contracts as `fresh`. The
constructor's stored `Date`s are fresh, so no `Date` the caller held before
the call can be one of them. Each accessor's result is fresh, so it is never
one of the stored `Date`s. No operation modifies a stored `Date`. Together
these mean that every `setTime` on a `Date` passed to the constructor or
returned by an accessor leaves the interval alone.

The constructor throws `IllegalArgumentException` with the message
`"requires start <= end"`; `Create`'s `Failure` carries the same.

## Model

| member | source | states |
|---|---|---|
| Dates.Date.constructor | src/Timespan.java:36-37 | `new Date(long)` holds exactly the given millisecond count |
| Dates.Date.GetTime | src/Timespan.java:45 | `getTime()` reports the stored millisecond count and changes nothing |
| Dates.Date.SetTime | src/Timespan.java:17-20 | a `Date` is mutable: `setTime` replaces its millisecond count, and changes only that `Date` |
| Dates.Date.Before | src/Timespan.java:23 | `before(when)`: this instant's millisecond count is strictly less than that of `when` |
| Dates.Date.After | src/Timespan.java:33 | `after(when)`: this instant's millisecond count is strictly greater than that of `when` |
| Dates.NotAfterIsNotBefore | src/Timespan.java:22-35 | the constructor's strict test `!start.after(end)` and the invariant `!end.before(start)` accept the same pairs, namely `start <= end`, and both accept equal instants |
| Timespans.Timespan.Valid | src/Timespan.java:12-13 | the rep invariant: end is not strictly before start |
| Timespans.Timespan.constructor | src/Timespan.java:36-38 | once the argument check has passed, the new object satisfies the rep invariant, its endpoints have the arguments' millisecond values, and both stored `Date`s are fresh and distinct, so they alias neither argument nor each other |
| Timespans.Timespan.Create | src/Timespan.java:32-39 | fails with `IllegalArgument("requires start <= end")` exactly when start is after end; otherwise yields a fresh, valid `Timespan` with fresh endpoint copies equal in value to the arguments; leaves the arguments unchanged |
| Timespans.Timespan.GetStart | src/Timespan.java:44-46 | returns a freshly allocated `Date`, never the stored one, whose time equals the stored start, and modifies nothing |
| Timespans.Timespan.GetEnd | src/Timespan.java:51-53 | returns a freshly allocated `Date`, never the stored one, whose time equals the stored end, and modifies nothing |
| Timespans.Timespan.Includes | src/Timespan.java:14-15 | the abstraction function: an instant belongs to the interval when it lies from start to end, both endpoints included |
| Timespans.IncludesEndpoints | src/Timespan.java:3-5 | a valid interval includes both of its endpoints, so it is never empty |
| Timespans.ZeroLengthIsSingleInstant | src/Timespan.java:12-15 | equal endpoints form a legal interval that stands for exactly one instant |
| Timespans.AbstractionDeterminesRep | src/Timespan.java:14-15 | the abstraction function is one-to-one on valid reps: two intervals that include the same instants have the same endpoints |
| TimespanClients.Construct | src/Timespan.java:32-53 | for any pair of millisecond values, construction is accepted exactly when `t0 <= t1`, and then `getStart`/`getEnd` report `t0` and `t1` |
| TimespanClients.MutateArguments | src/Timespan.java:17-37 | after construction, `setTime` on the caller's argument `Date`s, even into an out-of-order pair, leaves the rep invariant holding and the endpoints unchanged |
| TimespanClients.MutateReturned | src/Timespan.java:41-53 | `setTime` on the `Date`s that `getStart`/`getEnd` returned leaves the rep invariant holding, and later calls return the original instants |
| TimespanClients.SameDateTwice | src/Timespan.java:32-37 | one `Date` passed as both endpoints gives an accepted zero-length interval, and mutating that `Date` does not affect it |
| TimespanClients.CalendarScenarios | src/Timespan.java:32-35 | 2024-01-01 00:00 to itself and 2024-01-01 00:00 to 2024-12-31 23:59 (UTC) are accepted; the reversed pair is rejected |

## Left out

- `toString`, `equals` and `hashCode`: the source marks them as TODO and does not implement them, so the model gives `Timespan` no value equality.
- The rest of `java.util.Date`: calendar fields, time zones, formatting and the deprecated constructors. Only the millisecond count matters here. The calendar instants in `CalendarScenarios` are given as UTC millisecond constants.
- Java `assert` at run time: `checkRep` is normally disabled in the JVM. The model proves `Valid()` instead of checking it.
- `null` arguments: Java would throw `NullPointerException`. Dafny's class types are non-null, so that path does not exist in the model.
- Thread safety: the source has no concurrency.
- Java `private`: Dafny fields are visible to all code, so the model does not show that no other code can reach `start`/`end`; it shows that the API never exposes them.
- `Date` subclasses: `Date` is modelled as final. The check at src/Timespan.java:33 calls the argument's own `after` and the copies at src/Timespan.java:36-37 call its `getTime`; a subclass overriding those two so that they disagree could, with assertions disabled, yield a rep that violates `checkRep`. The model does not capture that.
- Timespans.Timespan.constructor: it requires `!start.after(end)` because a Dafny constructor cannot fail. The throwing path of the Java constructor is modelled by `Timespan.Create`.
