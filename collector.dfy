/** The two user-info fields filled in by the detached lookup chain (first the public IP, then
    the country of that IP), and the bounded wait that polls them before a message is composed.
    Time is counted in poll ticks of 100 ms; the wait gives up after 5000 ms, that is 50 ticks. */
module UserInfoCollector {

  /** The value both fields hold until the chain writes them. */
  const Fetching := "Fetching..."
  /** The value both fields get when any step of the chain fails. */
  const Unavailable := "Unavailable"

  const PollIntervalMs := 100
  const TimeoutMs := 5000
  const MaxTicks: nat := TimeoutMs / PollIntervalMs

  /** Where the lookup chain stands: never started (user-info collection switched off), waiting
      for the IP lookup, waiting for the country lookup, or finished. */
  datatype Stage = Idle | AwaitingIp | AwaitingCountry | Settled

  /** How the pending lookup settles: with the looked-up value, or by failing (a network error,
      an unreadable body, an exception in a callback). */
  datatype Settlement = Fulfilled(value: string) | Rejected

  /** The two asynchronous fields and the position of the chain that writes them. */
  datatype Snapshot = Snapshot(ipAddress: string, country: string, stage: Stage)

  /** Both fields start at the sentinel; the chain starts only when collection is on. */
  function Start(collectUserInfo: bool): (s: Snapshot)
    ensures Inv(s) && !Ready(s)
    ensures s.stage == Idle <==> !collectUserInfo
  {
    Snapshot(Fetching, Fetching, if collectUserInfo then AwaitingIp else Idle)
  }

  /** The exit test of the wait: both fields differ from the sentinel. In a state the chain can
      reach, it holds only once the chain has finished. */
  predicate Ready(s: Snapshot): (ready: bool)
    ensures ready && Inv(s) ==> s.stage == Settled
  {
    s.ipAddress != Fetching && s.country != Fetching
  }

  /** The next callback of the chain. The IP is written first and only then is the country looked
      up; a failure at either step writes `Unavailable` to both fields, overwriting an IP that had
      already been written. Once the chain is finished, or was never started, nothing runs. */
  function Settle(s: Snapshot, o: Settlement): (r: Snapshot)
    ensures r.stage == Settled || r.stage == s.stage || (s.stage == AwaitingIp && r.stage == AwaitingCountry)
  {
    match (s.stage, o)
    case (AwaitingIp, Fulfilled(ip)) => s.(ipAddress := ip, stage := AwaitingCountry)
    case (AwaitingCountry, Fulfilled(c)) => s.(country := c, stage := Settled)
    case (AwaitingIp, Rejected) => Snapshot(Unavailable, Unavailable, Settled)
    case (AwaitingCountry, Rejected) => Snapshot(Unavailable, Unavailable, Settled)
    case _ => s
  }

  /** What holds of every state the chain can reach: before the IP is written both fields are at
      the sentinel, and the country stays there until the IP has been written. */
  predicate Inv(s: Snapshot) {
    (s.stage == Idle || s.stage == AwaitingIp ==> s.ipAddress == Fetching && s.country == Fetching) &&
    (s.stage == AwaitingCountry ==> s.country == Fetching)
  }

  /** The settlements of a whole run of the chain, in order. */
  function Run(s: Snapshot, outcomes: seq<Settlement>): Snapshot
    decreases |outcomes|
  {
    if outcomes == [] then s else Run(Settle(s, outcomes[0]), outcomes[1..])
  }

  lemma SettlePreservesInv(s: Snapshot, o: Settlement)
    requires Inv(s)
    ensures Inv(Settle(s, o))
  {
  }

  /** Before the IP has been written, no settlement gives the country a looked-up value. */
  lemma CountryNotBeforeIp(s: Snapshot, o: Settlement)
    requires Inv(s) && (s.stage == Idle || s.stage == AwaitingIp)
    ensures Settle(s, o).country == Fetching || Settle(s, o).country == Unavailable
  {
  }

  /** A failure while the country is pending overwrites the IP already written. */
  lemma FailureOverwritesIp(s: Snapshot)
    requires s.stage == AwaitingCountry
    ensures Settle(s, Rejected) == Snapshot(Unavailable, Unavailable, Settled)
    ensures Ready(Settle(s, Rejected))
  {
  }

  /** A failure at any step of a running chain leaves the wait's exit test true. */
  lemma FailureMakesReady(s: Snapshot)
    requires s.stage == AwaitingIp || s.stage == AwaitingCountry
    ensures Ready(Settle(s, Rejected))
  {
  }

  /** A chain that is finished, or never started, stays as it is. */
  lemma {:induction false} RunFromQuiet(s: Snapshot, outcomes: seq<Settlement>)
    requires s.stage == Settled || s.stage == Idle
    ensures Run(s, outcomes) == s
    decreases |outcomes|
  {
    if outcomes != [] {
      RunFromQuiet(Settle(s, outcomes[0]), outcomes[1..]);
    }
  }

  /** Every run of the chain from the start, case by case: the country gets a looked-up value
      only in a run whose IP lookup succeeded first, and any failure leaves both fields at
      `Unavailable`, whatever came before it. */
  lemma {:induction false} RunOutcomes(outcomes: seq<Settlement>)
    ensures outcomes == [] ==> Run(Start(true), outcomes) == Start(true)
    ensures |outcomes| >= 1 && outcomes[0].Rejected? ==>
      Run(Start(true), outcomes) == Snapshot(Unavailable, Unavailable, Settled)
    ensures |outcomes| == 1 && outcomes[0].Fulfilled? ==>
      Run(Start(true), outcomes) == Snapshot(outcomes[0].value, Fetching, AwaitingCountry)
    ensures |outcomes| >= 2 && outcomes[0].Fulfilled? && outcomes[1].Fulfilled? ==>
      Run(Start(true), outcomes) == Snapshot(outcomes[0].value, outcomes[1].value, Settled)
    ensures |outcomes| >= 2 && outcomes[0].Fulfilled? && outcomes[1].Rejected? ==>
      Run(Start(true), outcomes) == Snapshot(Unavailable, Unavailable, Settled)
  {
    if |outcomes| >= 1 {
      var s1 := Settle(Start(true), outcomes[0]);
      if outcomes[0].Rejected? {
        RunFromQuiet(s1, outcomes[1..]);
      } else if |outcomes| >= 2 {
        var s2 := Settle(s1, outcomes[1]);
        assert Run(s1, outcomes[1..]) == Run(s2, outcomes[2..]);
        RunFromQuiet(s2, outcomes[2..]);
      }
    }
  }

  /** Collection switched off: the fields stay at the sentinel whatever happens. */
  lemma IdleStaysFetching(outcomes: seq<Settlement>)
    ensures Run(Start(false), outcomes) == Start(false)
  {
    RunFromQuiet(Start(false), outcomes);
  }

  /** Everything the chain settles between poll `t` and poll `t + 1`, in order: nothing, one
      callback, or several (both lookups may finish within one poll interval). */
  function Arrival(arrivals: seq<seq<Settlement>>, t: nat): seq<Settlement> {
    if t < |arrivals| then arrivals[t] else []
  }

  /** The fields as poll `t` sees them: the state at the first poll with the settlements of the
      first `t` intervals applied in order. */
  function Replay(s: Snapshot, arrivals: seq<seq<Settlement>>, t: nat): Snapshot {
    if t == 0 then s else Run(Replay(s, arrivals, t - 1), Arrival(arrivals, t - 1))
  }

  /** Running one more settlement after a run is the run of the longer sequence. */
  lemma {:induction false} RunSnoc(s: Snapshot, outcomes: seq<Settlement>, o: Settlement)
    ensures Run(s, outcomes + [o]) == Settle(Run(s, outcomes), o)
    decreases |outcomes|
  {
    if outcomes == [] {
      assert outcomes + [o] == [o];
    } else {
      assert (outcomes + [o])[1..] == outcomes[1..] + [o];
      RunSnoc(Settle(s, outcomes[0]), outcomes[1..], o);
    }
  }

  function WaitFrom(s: Snapshot, arrivals: seq<seq<Settlement>>, t: nat): (k: nat)
    requires t <= MaxTicks
    ensures t <= k <= MaxTicks
    ensures Ready(Replay(s, arrivals, k)) || k == MaxTicks
    ensures forall j :: t <= j < k ==> !Ready(Replay(s, arrivals, j))
    decreases MaxTicks - t
  {
    if Ready(Replay(s, arrivals, t)) || t == MaxTicks then t else WaitFrom(s, arrivals, t + 1)
  }

  /** `_waitForUserInfo`: the poll at which the wait returns. It checks at once, then once per
      tick, and returns at the first poll that finds both fields resolved, or at the timeout. */
  function WaitTicks(s: Snapshot, arrivals: seq<seq<Settlement>>): (k: nat)
    ensures k <= MaxTicks
    ensures Ready(Replay(s, arrivals, k)) || k == MaxTicks
    ensures forall j :: 0 <= j < k ==> !Ready(Replay(s, arrivals, j))
  {
    WaitFrom(s, arrivals, 0)
  }

  /** The wait's three conditions determine its exit poll. */
  lemma WaitTicksUnique(s: Snapshot, arrivals: seq<seq<Settlement>>, k: nat)
    requires k <= MaxTicks
    requires Ready(Replay(s, arrivals, k)) || k == MaxTicks
    requires forall j :: 0 <= j < k ==> !Ready(Replay(s, arrivals, j))
    ensures WaitTicks(s, arrivals) == k
  {
  }

  /** With both fields already resolved, the wait returns at once. */
  lemma WaitImmediate(s: Snapshot, arrivals: seq<seq<Settlement>>)
    requires Ready(s)
    ensures WaitTicks(s, arrivals) == 0
  {
    assert Replay(s, arrivals, 0) == s;
  }

  /** Fields that never resolve hold the wait for exactly the timeout, and no longer. */
  lemma WaitTimesOut(s: Snapshot, arrivals: seq<seq<Settlement>>)
    requires forall t :: 0 <= t <= MaxTicks ==> !Ready(Replay(s, arrivals, t))
    ensures WaitTicks(s, arrivals) == MaxTicks
  {
  }

  lemma {:induction false} ReplayQuiet(s: Snapshot, arrivals: seq<seq<Settlement>>, t: nat)
    requires forall j :: 0 <= j < t ==> Arrival(arrivals, j) == []
    ensures Replay(s, arrivals, t) == s
  {
    if t > 0 {
      ReplayQuiet(s, arrivals, t - 1);
    }
  }

  /** A failed lookup does not hold up the message: if the chain, started and still waiting for
      its IP, fails after poll `i` within the timeout, the wait returns at the next poll and sees
      `Unavailable` in both fields. */
  lemma FailedLookupEndsWait(arrivals: seq<seq<Settlement>>, i: nat)
    requires i < MaxTicks
    requires forall j :: 0 <= j < i ==> Arrival(arrivals, j) == []
    requires Arrival(arrivals, i) != [] && Arrival(arrivals, i)[0] == Rejected
    ensures WaitTicks(Start(true), arrivals) == i + 1
    ensures Replay(Start(true), arrivals, i + 1) == Snapshot(Unavailable, Unavailable, Settled)
  {
    var s := Start(true);
    forall j | 0 <= j <= i
      ensures Replay(s, arrivals, j) == s
    {
      ReplayQuiet(s, arrivals, j);
    }
    RunOutcomes(Arrival(arrivals, i));
    WaitTicksUnique(s, arrivals, i + 1);
  }

  /** Both lookups succeeding within the first poll interval end the wait at the first poll after
      the immediate check, with both looked-up values in place. */
  lemma BothLookupsInOneInterval(arrivals: seq<seq<Settlement>>, ip: string, c: string)
    requires Arrival(arrivals, 0) == [Fulfilled(ip), Fulfilled(c)]
    requires ip != Fetching && c != Fetching
    ensures WaitTicks(Start(true), arrivals) == 1
    ensures Replay(Start(true), arrivals, 1) == Snapshot(ip, c, Settled)
  {
    RunOutcomes(Arrival(arrivals, 0));
    assert Replay(Start(true), arrivals, 0) == Start(true);
    WaitTicksUnique(Start(true), arrivals, 1);
  }
}
