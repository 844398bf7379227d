/** The polling service: one boolean of state, `lastKnownAvailable`, updated
    once per loop iteration from a check of the page. The notifier is called
    only when a true reading meets a false state; a true-to-false edge clears
    the state silently; an exception from the check or the send is caught
    and leaves the state as it was. */
module Polling {
  import opened Settings
  import A = Availability
  import N = Notifications

  /** The poll interval used when "PollIntervalSeconds" is absent. */
  const DefaultIntervalSeconds := 60

  /** What one iteration of the loop observes: the check's outcome, and
      whether the send would throw if one were made. */
  datatype Tick = Tick(check: A.CheckResult, sendThrows: bool)

  /** The iteration calls the notifier: the reading is true and the state
      false. */
  predicate Attempts(last: bool, t: Tick) {
    t.check == A.Checked(true) && !last
  }

  /** The state after one iteration, from the state before it. */
  function Step(last: bool, t: Tick): (next: bool)
    ensures next != last ==> t.check == A.Checked(next)
    ensures next && !last ==> Attempts(last, t) && !t.sendThrows
    ensures t.check.CheckFault? ==> next == last && !Attempts(last, t)
    ensures t.check == A.Checked(last) ==> next == last && !Attempts(last, t)
    ensures t.check == A.Checked(false) ==> !next && !Attempts(last, t)
    ensures Attempts(last, t) ==> next == !t.sendThrows
  {
    match t.check
    case CheckFault => last
    case Checked(available) =>
      if available && !last then !t.sendThrows
      else if !available && last then false
      else last
  }

  /** The state after a whole trace of iterations. */
  function StateAfter(start: bool, ticks: seq<Tick>): bool
    decreases |ticks|
  {
    if ticks == [] then start
    else Step(StateAfter(start, ticks[..|ticks| - 1]), ticks[|ticks| - 1])
  }

  /** For each iteration of a trace, whether it called the notifier. */
  function AttemptFlags(start: bool, ticks: seq<Tick>): (flags: seq<bool>)
    ensures |flags| == |ticks|
    decreases |ticks|
  {
    if ticks == [] then []
    else
      var init := ticks[..|ticks| - 1];
      AttemptFlags(start, init) + [Attempts(StateAfter(start, init), ticks[|ticks| - 1])]
  }

  /** The value of the last check that produced a reading, or the start
      state when none has. */
  function LastReading(start: bool, ticks: seq<Tick>): bool
    decreases |ticks|
  {
    if ticks == [] then start
    else match ticks[|ticks| - 1].check
      case Checked(b) => b
      case CheckFault => LastReading(start, ticks[..|ticks| - 1])
  }

  /** No send in the trace throws. */
  predicate SendsSucceed(ticks: seq<Tick>) {
    forall i :: 0 <= i < |ticks| ==> !ticks[i].sendThrows
  }

  /** Every check in the trace reads a value and no send throws. */
  predicate Clean(ticks: seq<Tick>) {
    forall i :: 0 <= i < |ticks| ==> ticks[i].check.Checked? && !ticks[i].sendThrows
  }

  /** The flag of iteration i is decided by the state after the first i. */
  lemma {:induction false} AttemptFlagAt(start: bool, ticks: seq<Tick>, i: nat)
    requires i < |ticks|
    ensures AttemptFlags(start, ticks)[i] == Attempts(StateAfter(start, ticks[..i]), ticks[i])
  {
    var init := ticks[..|ticks| - 1];
    if i < |ticks| - 1 {
      AttemptFlagAt(start, init, i);
      assert init[..i] == ticks[..i];
    } else {
      assert init == ticks[..i];
    }
  }

  /** When no send throws, the state is the last value a check read: a
      failed check never moves it. */
  lemma {:induction false} StateIsLastReading(start: bool, ticks: seq<Tick>)
    requires SendsSucceed(ticks)
    ensures StateAfter(start, ticks) == LastReading(start, ticks)
    decreases |ticks|
  {
    if ticks != [] {
      var init := ticks[..|ticks| - 1];
      assert SendsSucceed(init) by {
        forall i | 0 <= i < |init| ensures !init[i].sendThrows {
          assert init[i] == ticks[i];
        }
      }
      StateIsLastReading(start, init);
    }
  }

  /** Notifications happen exactly at rising edges: iteration i calls the
      notifier if and only if it reads true and the last reading before it
      (or the start state) was false. */
  lemma RisingEdgesOnly(start: bool, ticks: seq<Tick>, i: nat)
    requires SendsSucceed(ticks) && i < |ticks|
    ensures AttemptFlags(start, ticks)[i] <==> ticks[i].check == A.Checked(true) && !LastReading(start, ticks[..i])
  {
    AttemptFlagAt(start, ticks, i);
    assert SendsSucceed(ticks[..i]) by {
      forall k | 0 <= k < i ensures !ticks[..i][k].sendThrows {
        assert ticks[..i][k] == ticks[k];
      }
    }
    StateIsLastReading(start, ticks[..i]);
  }

  /** Over a trace of plain readings, iteration i notifies if and only if it
      reads true and the reading just before it (or the start state) was
      false. */
  lemma CleanRisingEdges(start: bool, ticks: seq<Tick>, i: nat)
    requires Clean(ticks) && i < |ticks|
    ensures AttemptFlags(start, ticks)[i] <==>
      ticks[i].check.available && !(if i == 0 then start else ticks[i - 1].check.available)
  {
  }

  /** A trace of readings, every send succeeding. */
  function Readings(bs: seq<bool>): (ticks: seq<Tick>)
    ensures Clean(ticks) && |ticks| == |bs|
    ensures forall i :: 0 <= i < |bs| ==> ticks[i].check == A.Checked(bs[i])
  {
    seq(|bs|, i requires 0 <= i < |bs| => Tick(A.Checked(bs[i]), false))
  }

  /** From the cold start, readings F,F,T,T,F,T notify at the third and the
      sixth iteration only. */
  lemma ExampleTrace()
    ensures AttemptFlags(false, Readings([false, false, true, true, false, true]))
         == [false, false, true, false, false, true]
  {
    var bs := [false, false, true, true, false, true];
    var flags := AttemptFlags(false, Readings(bs));
    forall i | 0 <= i < 6 ensures flags[i] == [false, false, true, false, false, true][i] {
      CleanRisingEdges(false, Readings(bs), i);
    }
  }

  /** Once the state is true, it stays true while no check reads false. */
  lemma {:induction false} StaysAvailable(start: bool, ticks: seq<Tick>, i: nat, j: nat)
    requires i <= j <= |ticks|
    requires StateAfter(start, ticks[..i])
    requires forall k :: i <= k < j ==> ticks[k].check != A.Checked(false)
    ensures StateAfter(start, ticks[..j])
    decreases j - i
  {
    if i < j {
      var pre := ticks[..i + 1];
      assert pre[..i] == ticks[..i];
      assert pre[i] == ticks[i];
      assert StateAfter(start, pre);
      StaysAvailable(start, ticks, i + 1, j);
    }
  }

  /** Between two notifications, the first of which did not throw, some
      check read false: repeated true readings notify once. */
  lemma NoRepeatWithoutFalse(start: bool, ticks: seq<Tick>, i: nat, j: nat)
    requires i < j < |ticks|
    requires AttemptFlags(start, ticks)[i] && !ticks[i].sendThrows
    requires AttemptFlags(start, ticks)[j]
    ensures exists k :: i < k < j && ticks[k].check == A.Checked(false)
  {
    AttemptFlagAt(start, ticks, i);
    AttemptFlagAt(start, ticks, j);
    var pre := ticks[..i + 1];
    assert pre[..i] == ticks[..i];
    assert pre[i] == ticks[i];
    assert StateAfter(start, pre);
    if forall k :: i + 1 <= k < j ==> ticks[k].check != A.Checked(false) {
      StaysAvailable(start, ticks, i + 1, j);
      assert false;
    }
  }

  /** A send that throws leaves the state false, so the next true reading
      calls the notifier again. */
  lemma SendFaultRetries(start: bool, ticks: seq<Tick>, s: bool)
    requires !StateAfter(start, ticks)
    ensures var trace := ticks + [Tick(A.Checked(true), true), Tick(A.Checked(true), s)];
      && AttemptFlags(start, trace)[|ticks|]
      && !StateAfter(start, trace[..|ticks| + 1])
      && AttemptFlags(start, trace)[|ticks| + 1]
  {
    var trace := ticks + [Tick(A.Checked(true), true), Tick(A.Checked(true), s)];
    assert trace[..|ticks|] == ticks;
    var pre := trace[..|ticks| + 1];
    assert pre[..|ticks|] == ticks;
    AttemptFlagAt(start, trace, |ticks|);
    AttemptFlagAt(start, trace, |ticks| + 1);
  }

  // ---------------------------------------------------------------------
  // The service

  /** What the world looks like during one iteration: the page the poller
      loads, and how the HTTP transport answers a request. */
  datatype World = World(page: A.Page, http: N.Request -> N.HttpResult)

  /** The tick a world produces for a given poller and notifier. */
  function TickOf(p: A.Poller, n: N.Notifier, w: World): Tick {
    Tick(A.CheckOf(p, w.page), N.Raises(N.SendOutcomeOf(n, w.http)))
  }

  /** The ticks of a sequence of worlds. */
  function Ticks(p: A.Poller, n: N.Notifier, ws: seq<World>): (ts: seq<Tick>)
    ensures |ts| == |ws|
    ensures forall i :: 0 <= i < |ws| ==> ts[i] == TickOf(p, n, ws[i])
    decreases |ws|
  {
    if ws == [] then [] else Ticks(p, n, ws[..|ws| - 1]) + [TickOf(p, n, ws[|ws| - 1])]
  }

  /** The ticks of one more world extend the ticks of the worlds before it. */
  lemma TicksExtend(p: A.Poller, n: N.Notifier, ws: seq<World>, i: nat)
    requires i < |ws|
    ensures Ticks(p, n, ws[..i + 1]) == Ticks(p, n, ws[..i]) + [TickOf(p, n, ws[i])]
  {
    assert ws[..i + 1][..i] == ws[..i];
  }

  /** One more tick extends the trace functions by one step. */
  lemma TraceExtend(start: bool, ticks: seq<Tick>, t: Tick)
    ensures StateAfter(start, ticks + [t]) == Step(StateAfter(start, ticks), t)
    ensures AttemptFlags(start, ticks + [t]) == AttemptFlags(start, ticks) + [Attempts(StateAfter(start, ticks), t)]
  {
  }

  class PollingHostedService {
    const poller: A.Poller
    const notifier: N.Notifier
    const intervalSeconds: int
    var lastKnownAvailable: bool

    /** A cold start is always "unavailable". */
    constructor (poller: A.Poller, notifier: N.Notifier, cfg: Configuration)
      ensures this.poller == poller && this.notifier == notifier
      ensures intervalSeconds == (if cfg.pollIntervalSeconds.Some? then cfg.pollIntervalSeconds.value else DefaultIntervalSeconds)
      ensures !lastKnownAvailable
    {
      this.poller := poller;
      this.notifier := notifier;
      intervalSeconds := cfg.pollIntervalSeconds.GetOr(DefaultIntervalSeconds);
      lastKnownAvailable := false;
    }

    /** One iteration of the loop, inside its fault boundary. */
    method Iterate(w: World) returns (attempted: bool)
      modifies this
      ensures attempted == Attempts(old(lastKnownAvailable), TickOf(poller, notifier, w))
      ensures lastKnownAvailable == Step(old(lastKnownAvailable), TickOf(poller, notifier, w))
    {
      attempted := false;
      var check := A.CheckAsync(poller, w.page);
      if check.Checked? {
        var available := check.available;
        if available && !lastKnownAvailable {
          attempted := true;
          var outcome := N.SendAsync(notifier, w.http);
          if !N.Raises(outcome) {
            lastKnownAvailable := true;
          }
        } else if !available && lastKnownAvailable {
          lastKnownAvailable := false;
        }
      }
    }

    /** The loop, run over the worlds seen until cancellation is requested;
        returns, per iteration, whether the notifier was called. */
    method ExecuteAsync(worlds: seq<World>) returns (attempted: seq<bool>)
      modifies this
      ensures attempted == AttemptFlags(old(lastKnownAvailable), Ticks(poller, notifier, worlds))
      ensures lastKnownAvailable == StateAfter(old(lastKnownAvailable), Ticks(poller, notifier, worlds))
    {
      ghost var start := lastKnownAvailable;
      ghost var ticks: seq<Tick> := [];
      attempted := [];
      var i := 0;
      while i < |worlds|
        invariant 0 <= i <= |worlds|
        invariant ticks == Ticks(poller, notifier, worlds[..i])
        invariant attempted == AttemptFlags(start, ticks)
        invariant lastKnownAvailable == StateAfter(start, ticks)
      {
        ghost var t := TickOf(poller, notifier, worlds[i]);
        var a := Iterate(worlds[i]);
        TicksExtend(poller, notifier, worlds, i);
        TraceExtend(start, ticks, t);
        attempted := attempted + [a];
        ticks := ticks + [t];
        i := i + 1;
      }
      assert worlds[..i] == worlds;
    }
  }

  /** A skipped send does not throw: on a rising edge the state becomes true
      although no request was made, so no later true reading retries. */
  lemma SkippedSendStillLatches(p: A.Poller, n: N.Notifier, w: World)
    requires !N.HasDestination(n) || !N.HasCredentials(n)
    requires A.CheckOf(p, w.page) == A.Checked(true)
    ensures Attempts(false, TickOf(p, n, w))
    ensures Step(false, TickOf(p, n, w))
    ensures N.RequestsIssued(N.SendOutcomeOf(n, w.http)) == []
  {
  }

  /** A transport exception during the send leaves the state false. */
  lemma TransportFaultKeepsUnavailable(p: A.Poller, n: N.Notifier, w: World)
    requires N.HasDestination(n) && N.HasCredentials(n)
    requires A.CheckOf(p, w.page) == A.Checked(true)
    requires w.http(N.DirectRequest(n)).TransportFault?
    ensures Attempts(false, TickOf(p, n, w))
    ensures !Step(false, TickOf(p, n, w))
  {
  }

  /** A non-success status is only logged: on a rising edge the state
      becomes true although nothing was delivered, so the next true reading
      does not retry. */
  lemma FailedStatusStillLatches(p: A.Poller, n: N.Notifier, w: World, w2: World)
    requires N.HasDestination(n) && N.HasCredentials(n) && N.HeaderSafe(n.accessToken)
    requires A.CheckOf(p, w.page) == A.Checked(true)
    requires w.http(N.DirectRequest(n)).Response? && !N.IsSuccessStatusCode(w.http(N.DirectRequest(n)).statusCode)
    ensures Attempts(false, TickOf(p, n, w))
    ensures Step(false, TickOf(p, n, w))
    ensures !Attempts(Step(false, TickOf(p, n, w)), TickOf(p, n, w2))
  {
  }

  /** Checks that all fail leave the state alone and never notify. */
  lemma {:induction false} FaultsAreQuiet(start: bool, ticks: seq<Tick>)
    requires forall i :: 0 <= i < |ticks| ==> ticks[i].check.CheckFault?
    ensures StateAfter(start, ticks) == start
    ensures forall i :: 0 <= i < |ticks| ==> !AttemptFlags(start, ticks)[i]
    decreases |ticks|
  {
    if ticks != [] {
      var init := ticks[..|ticks| - 1];
      assert forall i :: 0 <= i < |init| ==> init[i] == ticks[i];
      FaultsAreQuiet(start, init);
    }
  }

  /** When every send throws, the state never leaves the cold start, so
      every true reading calls the notifier. */
  lemma {:induction false} ThrowingSendsNeverLatch(ticks: seq<Tick>)
    requires forall i :: 0 <= i < |ticks| ==> ticks[i].sendThrows
    ensures !StateAfter(false, ticks)
    ensures forall i :: 0 <= i < |ticks| ==> (AttemptFlags(false, ticks)[i] <==> ticks[i].check == A.Checked(true))
    decreases |ticks|
  {
    if ticks != [] {
      var init := ticks[..|ticks| - 1];
      assert forall i :: 0 <= i < |init| ==> init[i] == ticks[i];
      ThrowingSendsNeverLatch(init);
    }
  }

  /** A token that passes the blank guard but is refused as a header value
      makes every send raise: from the cold start the state stays false and
      every true reading calls the notifier again, without any request. */
  lemma UnsafeTokenNotifiesEveryTrueReading(p: A.Poller, n: N.Notifier, ws: seq<World>)
    requires N.HasDestination(n) && N.HasCredentials(n) && !N.HeaderSafe(n.accessToken)
    ensures !StateAfter(false, Ticks(p, n, ws))
    ensures forall i :: 0 <= i < |ws| ==>
      (AttemptFlags(false, Ticks(p, n, ws))[i] <==> A.CheckOf(p, ws[i].page) == A.Checked(true))
    ensures forall i :: 0 <= i < |ws| ==> N.RequestsIssued(N.SendOutcomeOf(n, ws[i].http)) == []
  {
    ThrowingSendsNeverLatch(Ticks(p, n, ws));
  }

  /** Without a target URL the service never calls the notifier and never
      leaves its start state. */
  lemma NoTargetUrlNeverNotifies(start: bool, cfg: Configuration, n: N.Notifier, ws: seq<World>)
    requires cfg.targetUrl.None?
    ensures StateAfter(start, Ticks(A.NewPoller(cfg), n, ws)) == start
    ensures forall i :: 0 <= i < |ws| ==> !AttemptFlags(start, Ticks(A.NewPoller(cfg), n, ws))[i]
  {
    var ticks := Ticks(A.NewPoller(cfg), n, ws);
    forall i | 0 <= i < |ticks| ensures ticks[i].check.CheckFault? {
      A.MissingTargetUrlFails(cfg, ws[i].page);
    }
    FaultsAreQuiet(start, ticks);
  }
}
