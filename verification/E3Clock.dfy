/** How E3, the clock of the operating system, moves: its state and its events together. */
module E3Clock {
  import opened SyncStates
  import opened Int64s
  import opened Options
  import opened Engine
  import opened EventTrace
  import opened Elsewhere

  /** E3 of a config takes this state, and an event says so if it is another one. */
  ghost predicate Becomes(n: Node, m: Node, c: ConfigName, s: SyncState) {
    && At(m, c, ClockRealtime).state == s
    && E3Events(m.trace, c) == E3Events(n.trace, c) + if s == At(n, c, ClockRealtime).state then [] else [s]
  }

  ghost predicate Stays(n: Node, m: Node, c: ConfigName) {
    Becomes(n, m, c, At(n, c, ClockRealtime).state)
  }

  lemma StaysThen(n: Node, m: Node, l: Node, c: ConfigName, s: SyncState)
    requires Stays(n, m, c) && Becomes(m, l, c, s)
    ensures Becomes(n, l, c, s)
  {
  }

  lemma ThenStays(n: Node, m: Node, l: Node, c: ConfigName, s: SyncState)
    requires Becomes(n, m, c, s) && Stays(m, l, c)
    ensures Becomes(n, l, c, s)
  {
  }

  lemma SameIsStays(n: Node, m: Node, c: ConfigName)
    requires m.trace == n.trace && At(m, c, ClockRealtime).state == At(n, c, ClockRealtime).state
    ensures Stays(n, m, c)
  {
  }

  /** Whatever does not touch CLOCK_REALTIME. */
  lemma UnreadStays(n: Node, m: Node, c: ConfigName)
    requires Unread(n, m, c, ClockRealtime)
    ensures Stays(n, m, c)
  {
    QuietE3(n.trace, m.trace, c);
  }

  lemma {:induction false} QuietE3(t: Trace, u: Trace, c: ConfigName)
    requires Quiet(t, u, c, ClockRealtime)
    ensures E3Events(u, c) == E3Events(t, c)
    decreases |u|
  {
    if |u| > |t| {
      QuietE3(t, u[..|u| - 1], c);
    } else {
      assert u == t;
    }
  }

  /** A report for CLOCK_REALTIME is told exactly if it changes the state. */
  lemma GenBecomes(n: Node, c: ConfigName, offset: Int64, reported: Known)
    ensures
      var m := Gen(n, c, ClockRealtime, offset, reported, OsClockState);
      Becomes(n, m, c, At(m, c, ClockRealtime).state)
  {
    hide Announce, At, Has, NodeState, PtpThreshold, IsOffsetInRange, Record, KeepsOffset, AddsValue;
    var t := PtpThreshold(n, ConfigOf(n, c).profile, false);
    var last := At(n, c, ClockRealtime).state;
    var next := NextState(last, reported, IsOffsetInRange(offset, t.max));
    var r := Recovered(t, last, next);
    ThresholdFrame(n, ConfigOf(n, c).profile, false);
    SameStats(n, r);
    AnnounceEvents(r, c, next, offset, IsNews(last, next, OsClockState));
  }

  lemma AnnounceEvents(n: Node, c: ConfigName, state: Known, offset: Int64, publish: bool)
    ensures
      var m := Announce(n, c, ClockRealtime, state, offset, OsClockState, publish);
      E3Events(m.trace, c) == E3Events(n.trace, c) + if publish then [state] else []
  {
    hide NodeState, At, Announce, E3Events;
    var k, kind := ClockRealtime, OsClockState;
    var store, event := Stored(c, k, At(n, c, k).state, state), Published(kind, c, k, state, offset);
    var told := n.trace + [store] + [event];
    var m := Announce(n, c, k, state, offset, kind, publish);
    Snoc(n.trace, store, c, k, Unset);
    Snoc(n.trace + [store], event, c, k, Unset);
    if m.trace != n.trace + [store] && m.trace != told {
      assert m.trace == told + [m.trace[|told|]];
      Snoc(told, m.trace[|told|], c, k, Unset);
    }
  }

  // ----- The death of a process

  /** phc2sys steered the clock, and no chronyd may take over. */
  ghost predicate LosesPhc2sys(n: Node, c: ConfigName) {
    var profile := ConfigOf(n, c).profile;
    && Has(n, c, ClockRealtime)
    && profile != "" && profile in n.opts && n.opts[profile].phc2sys && !n.opts[profile].chronyd
  }

  /** In every run the line that a process died makes E3 of its config FREERUN, with an event if it was
      another state, if and only if the process is not ts2phc, phc2sys loses the clock and there are stats
      of the master, without which the death of the leading process is not handled to its end. Otherwise it
      changes nothing about E3; nor does it about that of another config. */
  lemma DeathMovesE3(r: Run, i: nat, c: ConfigName, process: Process, d: ConfigName)
    requires IsRun(r) && i < |r.inputs| && r.inputs[i] == Line(c, ProcessStatus(process, false))
    ensures
      var n, m := r.states[i], r.states[i + 1];
      var falls := process != Ts2phc && LosesPhc2sys(n, c) && (Has(n, c, Master) || n.offsetSource != process);
      Becomes(n, m, d, if d == c && falls then FreeRun else At(n, d, ClockRealtime).state)
  {
    assert Follows(r, i);
    hide Init, ProcessDown, At, Has, Becomes, LosesPhc2sys;
    var n := r.states[i];
    var m := n.(stats := n.stats[c := StatsOf(n.stats, c)]);
    SameEntries(n, c);
    SameLoss(n, m, c);
    SameIsStays(n, m, d);
    DownMovesE3(m, c, process, d);
    var falls := process != Ts2phc && LosesPhc2sys(n, c) && (Has(n, c, Master) || n.offsetSource != process);
    StaysThen(n, m, r.states[i + 1], d, if d == c && falls then FreeRun else At(n, d, ClockRealtime).state);
  }

  lemma SameLoss(n: Node, m: Node, c: ConfigName)
    requires m.configs == n.configs && m.opts == n.opts
    requires Has(m, c, ClockRealtime) <==> Has(n, c, ClockRealtime)
    ensures LosesPhc2sys(m, c) == LosesPhc2sys(n, c)
  {
  }

  lemma DownMovesE3(n: Node, c: ConfigName, process: Process, d: ConfigName)
    ensures
      var falls := process != Ts2phc && LosesPhc2sys(n, c) && (Has(n, c, Master) || n.offsetSource != process);
      Becomes(n, ProcessDown(n, c, process), d, if d == c && falls then FreeRun else At(n, d, ClockRealtime).state)
  {
    hide At, Has, Becomes, LosesPhc2sys, TbcDown, MasterDown, RealtimeDown, Silence, Unread;
    if process == Ts2phc {
      SilenceApart(n, c, d, ClockRealtime);
      UnreadStays(n, ProcessDown(n, c, process), d);
    } else {
      var m := TbcDown(n, c, process);
      TbcDownApart(n, c, process, d, ClockRealtime);
      UnreadStays(n, m, d);
      TbcDownFrame(n, c, process);
      RealtimeDownMoves(n, m, c, d);
      if n.offsetSource == process && Has(m, c, Master) {
        var e1 := MasterDown(m, c);
        MasterDownApart(m, c, d, ClockRealtime);
        UnreadStays(m, e1, d);
        KeepsState(n, m, d);
        StaysThen(n, m, e1, d, At(n, d, ClockRealtime).state);
        MasterDownFrame(m, c);
        RealtimeDownMoves(n, e1, c, d);
      }
    }
  }

  ghost predicate SameSetup(n: Node, m: Node, c: ConfigName) {
    && m.configs == n.configs && m.opts == n.opts
    && (Has(m, c, ClockRealtime) <==> Has(n, c, ClockRealtime)) && (Has(m, c, Master) <==> Has(n, c, Master))
  }

  lemma TbcDownFrame(n: Node, c: ConfigName, process: Process)
    ensures var m := TbcDown(n, c, process); SameSetup(n, m, c) && m.offsetSource == n.offsetSource
  {
    hide Gen, At, Has;
    SameStats(n, n.(trace := n.trace + [Died(c)]));
  }

  lemma MasterDownFrame(n: Node, c: ConfigName)
    requires Has(n, c, Master)
    ensures SameSetup(n, MasterDown(n, c), c)
  {
    hide Gen, At, Has;
  }

  lemma RealtimeDownMoves(n: Node, m: Node, c: ConfigName, d: ConfigName)
    requires Stays(n, m, d) && SameSetup(n, m, c)
    ensures
      Becomes(n, RealtimeDown(m, c), d, if d == c && LosesPhc2sys(n, c) then FreeRun else At(n, d, ClockRealtime).state)
  {
    hide Gen, At, Has, Becomes, Unread;
    var l := RealtimeDown(m, c);
    if d != c {
      RealtimeDownApart(m, c, d, ClockRealtime);
      UnreadStays(m, l, d);
      KeepsState(n, m, d);
      ThenStays(n, m, l, d, At(n, d, ClockRealtime).state);
    } else if LosesPhc2sys(n, c) {
      GenBecomes(m, c, FREE_RUN_OFFSET, FreeRun);
      StaysThen(n, m, l, c, FreeRun);
    }
  }

  lemma KeepsState(n: Node, m: Node, c: ConfigName)
    requires Stays(n, m, c)
    ensures At(m, c, ClockRealtime).state == At(n, c, ClockRealtime).state
  {
  }
}
