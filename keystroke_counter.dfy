/**
 * The text box's keystroke counter as a state machine over events. Every
 * keystroke adds one to the counter and starts a timer; a timer that fires
 * while the counter is positive makes one durable update of the slides and
 * resets the counter, and one that fires at zero does nothing. Time itself
 * is not modelled: a trace is the order in which keystrokes and timer
 * firings happen.
 */
module KeystrokeCounter {
  datatype Event = Keystroke | TimerFired

  /** The durable updates a run made, and the counter at its end. */
  datatype Outcome = Outcome(commits: nat, keyStrokes: nat)

  /** The counter after one event, and whether the event made a durable update. */
  function Step(keyStrokes: nat, e: Event): (r: (nat, bool))
    ensures e == Keystroke ==> r == (keyStrokes + 1, false)
    ensures e == TimerFired ==> r.0 == 0 && (r.1 <==> keyStrokes > 0)
  {
    match e
    case Keystroke => (keyStrokes + 1, false)
    case TimerFired => if keyStrokes > 0 then (0, true) else (keyStrokes, false)
  }

  /**
   * Runs `trace` from a counter at `keyStrokes`. Only timer firings make
   * durable updates, and only keystrokes raise the counter.
   */
  function Run(keyStrokes: nat, trace: seq<Event>): (r: Outcome)
    ensures r.commits <= Count(trace, TimerFired)
    ensures r.keyStrokes <= keyStrokes + Count(trace, Keystroke)
    decreases |trace|
  {
    if trace == [] then Outcome(0, keyStrokes)
    else
      CountCons(trace, TimerFired);
      CountCons(trace, Keystroke);
      var (next, committed) := Step(keyStrokes, trace[0]);
      var rest := Run(next, trace[1..]);
      Outcome(rest.commits + (if committed then 1 else 0), rest.keyStrokes)
  }

  /** How many times `e` occurs in `trace`. */
  function Count(trace: seq<Event>, e: Event): nat {
    multiset(trace)[e]
  }

  lemma CountCons(trace: seq<Event>, e: Event)
    requires trace != []
    ensures Count(trace, e) == (if trace[0] == e then 1 else 0) + Count(trace[1..], e)
  {
    assert trace == [trace[0]] + trace[1..];
    assert multiset(trace) == multiset([trace[0]]) + multiset(trace[1..]);
  }

  /**
   * Every timer in `trace` fires after it was started: `pending` timers
   * are running at the start, each keystroke starts one, each firing ends one.
   */
  ghost predicate Scheduled(pending: nat, trace: seq<Event>)
    decreases |trace|
  {
    || trace == []
    || (trace[0] == Keystroke && Scheduled(pending + 1, trace[1..]))
    || (trace[0] == TimerFired && pending > 0 && Scheduled(pending - 1, trace[1..]))
  }

  /**
   * Each durable update uses up at least one keystroke: the updates made
   * plus the keystrokes still counted never exceed the keystrokes seen.
   */
  lemma {:induction false} CommitsNeverExceedKeystrokes(keyStrokes: nat, trace: seq<Event>)
    ensures Run(keyStrokes, trace).commits + Run(keyStrokes, trace).keyStrokes
            <= keyStrokes + Count(trace, Keystroke)
    decreases |trace|
  {
    if trace != [] {
      CountCons(trace, Keystroke);
      var (next, _) := Step(keyStrokes, trace[0]);
      CommitsNeverExceedKeystrokes(next, trace[1..]);
    }
  }

  /**
   * While the counter is at most the number of running timers, the
   * keystrokes it still holds are covered by timers that have not fired.
   */
  lemma {:induction false} CounterCoveredByTimers(keyStrokes: nat, pending: nat, trace: seq<Event>)
    requires keyStrokes <= pending
    requires Scheduled(pending, trace)
    ensures Run(keyStrokes, trace).keyStrokes + Count(trace, TimerFired)
            <= pending + Count(trace, Keystroke)
    decreases |trace|
  {
    if trace != [] {
      CountCons(trace, Keystroke);
      CountCons(trace, TimerFired);
      var (next, _) := Step(keyStrokes, trace[0]);
      if trace[0] == Keystroke {
        CounterCoveredByTimers(next, pending + 1, trace[1..]);
      } else {
        CounterCoveredByTimers(next, pending - 1, trace[1..]);
      }
    }
  }

  /** A run that typed something and ends with the counter at zero made a durable update. */
  lemma {:induction false} KeystrokesEndInCommit(keyStrokes: nat, trace: seq<Event>)
    requires keyStrokes + Count(trace, Keystroke) > 0
    requires Run(keyStrokes, trace).keyStrokes == 0
    ensures Run(keyStrokes, trace).commits >= 1
    decreases |trace|
  {
    if trace != [] {
      CountCons(trace, Keystroke);
      var (next, committed) := Step(keyStrokes, trace[0]);
      if !committed {
        KeystrokesEndInCommit(next, trace[1..]);
      }
    }
  }

  /**
   * Once every started timer has fired, the counter is back at zero, and
   * typing anything at all made at least one and at most one durable
   * update per keystroke.
   */
  lemma EveryKeystrokeIsCommitted(trace: seq<Event>)
    requires Scheduled(0, trace)
    requires Count(trace, TimerFired) == Count(trace, Keystroke)
    ensures Run(0, trace).keyStrokes == 0
    ensures Count(trace, Keystroke) > 0 ==> 1 <= Run(0, trace).commits <= Count(trace, Keystroke)
  {
    CounterCoveredByTimers(0, 0, trace);
    CommitsNeverExceedKeystrokes(0, trace);
    if Count(trace, Keystroke) > 0 {
      KeystrokesEndInCommit(0, trace);
    }
  }

  function Repeat(e: Event, n: nat): (r: seq<Event>)
    ensures |r| == n && forall i :: 0 <= i < n ==> r[i] == e
  {
    seq(n, _ => e)
  }

  lemma {:induction false} RunKeystrokes(keyStrokes: nat, n: nat, rest: seq<Event>)
    ensures Run(keyStrokes, Repeat(Keystroke, n) + rest) == Run(keyStrokes + n, rest)
    decreases n
  {
    if n > 0 {
      var t := Repeat(Keystroke, n) + rest;
      assert t[0] == Keystroke;
      assert t[1..] == Repeat(Keystroke, n - 1) + rest;
      RunKeystrokes(keyStrokes + 1, n - 1, rest);
    } else {
      assert Repeat(Keystroke, n) + rest == rest;
    }
  }

  lemma {:induction false} RunTimerFirings(keyStrokes: nat, m: nat)
    requires m > 0
    ensures Run(keyStrokes, Repeat(TimerFired, m)) == Outcome(if keyStrokes > 0 then 1 else 0, 0)
    decreases m
  {
    var t := Repeat(TimerFired, m);
    assert t[0] == TimerFired;
    var (next, _) := Step(keyStrokes, TimerFired);
    if m > 1 {
      assert t[1..] == Repeat(TimerFired, m - 1);
      RunTimerFirings(next, m - 1);
    } else {
      assert t[1..] == [];
    }
  }

  /**
   * A burst of n keystrokes whose timers all fire after the burst makes
   * exactly one durable update, whatever n is.
   */
  lemma BurstCommitsOnce(n: nat)
    requires n > 0
    ensures Run(0, Repeat(Keystroke, n) + Repeat(TimerFired, n)) == Outcome(1, 0)
  {
    RunKeystrokes(0, n, Repeat(TimerFired, n));
    RunTimerFirings(n, n);
  }

  /**
   * The update is made by the first timer that fires while the counter is
   * positive, whichever keystroke started it, and does not wait for a
   * pause: two keystrokes, the first timer, a third keystroke, and then
   * the two remaining timers give two durable updates within one stretch
   * of typing; the second comes from the second keystroke's timer, though
   * that keystroke was typed before the reset.
   */
  lemma CommitDuringTyping()
    ensures Run(0, [Keystroke, Keystroke, TimerFired, Keystroke, TimerFired, TimerFired]) == Outcome(2, 0)
  {
  }
}
