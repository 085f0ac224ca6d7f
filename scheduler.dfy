/** main.go: the namespace the recorder is created with, and the loop that scrapes and
    sleeps for as long as the exporter runs. The scrapes appear by what they return, and
    the sleeps by how long they last; the loop never ends, so a run is followed through
    its first scrapes, however many are given. */
module Scheduler {
  import opened Common

  const DefaultNamespace: string := "nsxt"

  /** The namespace of every metric: the configured one, or "nsxt" when none is set. */
  function Namespace(configured: string): (r: string)
    ensures r != ""
    ensures configured != "" ==> r == configured
    ensures configured == "" ==> r == DefaultNamespace
  {
    if configured != "" then configured else DefaultNamespace
  }

  /** What the loop does, in order: a scrape, or a sleep of some nanoseconds. */
  datatype Event = Scrape | Sleep(duration: int)

  /** How long the loop sleeps after a scrape: the interval after a success, the error
      interval after a failure. */
  function Pause(err: Option<Error>, interval: int, errorInterval: int): int {
    if err.None? then interval else errorInterval
  }

  /** The events of a run whose scrapes return `errs`, in order: each scrape followed by
      its sleep. */
  function Trace(errs: seq<Option<Error>>, interval: int, errorInterval: int): seq<Event>
    decreases |errs|
  {
    if errs == [] then []
    else Trace(errs[..|errs| - 1], interval, errorInterval) + [Scrape, Sleep(Pause(errs[|errs| - 1], interval, errorInterval))]
  }

  /** A run alternates scrapes and sleeps, starting with a scrape: the k-th scrape is
      event 2k and the sleep after it, of the length its outcome selects, event 2k + 1. */
  lemma {:induction false} TraceAlternates(errs: seq<Option<Error>>, interval: int, errorInterval: int)
    ensures |Trace(errs, interval, errorInterval)| == 2 * |errs|
    ensures forall k :: 0 <= k < |errs| ==> Trace(errs, interval, errorInterval)[2 * k] == Scrape
    ensures forall k :: 0 <= k < |errs| ==>
      Trace(errs, interval, errorInterval)[2 * k + 1] == Sleep(Pause(errs[k], interval, errorInterval))
    decreases |errs|
  {
    if errs != [] {
      var front := errs[..|errs| - 1];
      TraceAlternates(front, interval, errorInterval);
      var t := Trace(front, interval, errorInterval);
      var last := [Scrape, Sleep(Pause(errs[|errs| - 1], interval, errorInterval))];
      assert Trace(errs, interval, errorInterval) == t + last;
      forall k | 0 <= k < |errs|
        ensures (t + last)[2 * k] == Scrape
        ensures (t + last)[2 * k + 1] == Sleep(Pause(errs[k], interval, errorInterval))
      {
        if k < |front| {
          assert errs[k] == front[k];
        }
      }
    }
  }

  /** The first scrape runs at once, before any sleep. */
  lemma FirstScrapeAtOnce(errs: seq<Option<Error>>, interval: int, errorInterval: int)
    requires errs != []
    ensures Trace(errs, interval, errorInterval)[0] == Scrape
  {
    TraceAlternates(errs, interval, errorInterval);
  }

  /** The goroutine of `main`: an inner loop scrapes and sleeps the interval until a
      scrape fails; the outer loop then sleeps the error interval and starts the inner
      loop again. Followed through the scrapes that return `errs`, it does one scrape
      and then one sleep per scrape. */
  method Run(errs: seq<Option<Error>>, interval: int, errorInterval: int) returns (events: seq<Event>)
    ensures events == Trace(errs, interval, errorInterval)
  {
    events := [];
    var i := 0;
    while i < |errs|
      invariant 0 <= i <= |errs|
      invariant events == Trace(errs[..i], interval, errorInterval)
      decreases |errs| - i
    {
      var failed := false;
      ghost var start := i;
      while !failed && i < |errs|
        invariant start <= i <= |errs|
        invariant failed ==> start < i
        invariant !failed ==> events == Trace(errs[..i], interval, errorInterval)
        invariant failed ==> 0 < i && errs[i - 1].Some?
                             && events + [Sleep(errorInterval)] == Trace(errs[..i], interval, errorInterval)
      {
        var err := errs[i];
        assert errs[..i + 1][..i] == errs[..i];
        events := events + [Scrape];
        i := i + 1;
        if err.Some? {
          failed := true;
          assert events + [Sleep(errorInterval)] == Trace(errs[..i - 1], interval, errorInterval) + [Scrape, Sleep(errorInterval)];
        } else {
          events := events + [Sleep(interval)];
        }
      }
      if failed {
        events := events + [Sleep(errorInterval)];
      }
    }
    assert errs[..i] == errs;
  }
}
