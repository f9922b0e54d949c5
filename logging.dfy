/** The event logger (log_SimPy.py): the days/hours/minutes split of a
    simulated time in minutes, and the list of logged events. */
module Logging {

  /** A simulated instant written as days, hours and minutes. */
  datatype Stamp = Stamp(days: nat, hours: nat, minutes: nat)

  /** A stamp that names an instant: hours and minutes within their range. */
  predicate WellFormed(c: Stamp) {
    c.hours < 24 && c.minutes < 60
  }

  /** The minutes since time zero that a stamp stands for. */
  function TotalMinutes(c: Stamp): nat {
    c.days * 1440 + c.hours * 60 + c.minutes
  }

  /** `t // (24 * 60)`, `(t % (24 * 60)) // 60` and `t % 60` for a time `t`
      in whole minutes. */
  function Split(t: nat): (c: Stamp)
    ensures WellFormed(c)
    ensures TotalMinutes(c) == t
  {
    var c := Stamp(t / 1440, (t % 1440) / 60, t % 60);
    SplitSums(t);
    c
  }

  /** The three parts add back up to `t`: the minutes of the day split into
      hours and minutes, and `t % 60` is the minutes of that split. */
  lemma SplitSums(t: nat)
    ensures (t % 1440) / 60 < 24
    ensures (t / 1440) * 1440 + ((t % 1440) / 60) * 60 + t % 60 == t
  {
    var d, r := t / 1440, t % 1440;
    assert t == d * 1440 + r;
    var h, m := r / 60, r % 60;
    assert r == h * 60 + m;
    assert t == (d * 24 + h) * 60 + m;
    DivModUnique(t, 60, d * 24 + h, m);
  }

  /** A well-formed stamp is the split of the time it stands for: splitting
      and totalling are inverse on well-formed stamps. */
  lemma SplitOfTotal(c: Stamp)
    requires WellFormed(c)
    ensures Split(TotalMinutes(c)) == c
  {
    var t := TotalMinutes(c);
    var s := Split(t);
    DivModUnique(t, 1440, c.days, c.hours * 60 + c.minutes);
    DivModUnique(c.hours * 60 + c.minutes, 60, c.hours, c.minutes);
    DivModUnique(t, 60, c.days * 24 + c.hours, c.minutes);
  }

  /** Quotient and remainder are determined by `t == q * d + r` with `r < d`. */
  lemma DivModUnique(t: nat, d: nat, q: nat, r: nat)
    requires 0 < d && r < d && t == q * d + r
    ensures t / d == q && t % d == r
  {
    var q', r' := t / d, t % d;
    assert t == q' * d + r';
    if q' < q {
      MulMonotone(q' + 1, q, d);
      assert false;
    } else if q < q' {
      MulMonotone(q + 1, q', d);
      assert false;
    }
  }

  lemma MulMonotone(a: nat, b: nat, d: nat)
    requires a <= b
    ensures a * d <= b * d
  {
  }

  /** Different times give different stamps. */
  lemma SplitInjective(t: nat, u: nat)
    requires Split(t) == Split(u)
    ensures t == u
  {
  }

  /** One entry of `event_logs`: the time, the event type and the message. */
  datatype Event = Event(time: nat, eventType: string, message: string)

  class Logger {
    var eventLogs: seq<Event>

    constructor ()
      ensures eventLogs == []
    {
      eventLogs := [];
    }

    /** `log_event`: with event logging on, records the event at `now`
        (the printed line is not modelled); with it off, does nothing. */
    method LogEvent(eventType: string, message: string, now: nat, eventLogging: bool)
      modifies this`eventLogs
      ensures eventLogging ==> eventLogs == old(eventLogs) + [Event(now, eventType, message)]
      ensures !eventLogging ==> eventLogs == old(eventLogs)
    {
      if eventLogging {
        eventLogs := eventLogs + [Event(now, eventType, message)];
      }
    }
  }
}
