/** The state of a handler object: its `collectUserInfo` setting and its user-info record, whose
    IP and country fields the detached lookup chain writes while messages wait for them. */
module Handler {
  import opened BrowserDetection
  import opened MessageText
  import opened UserInfoCollector

  class TelegramHandler {
    /** False only when the configuration sets `collectUserInfo` to `false`. */
    const collectUserInfo: bool
    const userAgent: string
    const timezone: string
    const browser: string
    var ipAddress: string
    var country: string
    /** Where the lookup chain started by the constructor stands. */
    var collector: Stage

    function UserInfo(): Snapshot
      reads this
    {
      Snapshot(ipAddress, country, collector)
    }

    function Info(): MessageText.Info
      reads this
    {
      MessageText.Info(ipAddress, country, timezone, browser, userAgent)
    }

    ghost predicate Valid()
      reads this
    {
      Inv(UserInfo()) && (collector == Idle <==> !collectUserInfo)
    }

    /** The user agent and the timezone are read from the browser by the caller. The browser
        label is the resolver's, and the lookup chain is started only when collection is on. */
    constructor (userAgent: string, timezone: string, collectUserInfo: bool)
      ensures Valid()
      ensures this.userAgent == userAgent && this.timezone == timezone
      ensures this.collectUserInfo == collectUserInfo
      ensures browser == Classify(userAgent)
      ensures UserInfo() == Start(collectUserInfo)
    {
      this.collectUserInfo := collectUserInfo;
      this.userAgent := userAgent;
      this.timezone := timezone;
      browser := Classify(userAgent);
      ipAddress := Fetching;
      country := Fetching;
      collector := if collectUserInfo then AwaitingIp else Idle;
    }

    /** The callback run when the IP lookup succeeds; it starts the country lookup. */
    method IpResolved(ip: string)
      requires Valid() && collector == AwaitingIp
      modifies this`ipAddress, this`collector
      ensures Valid()
      ensures ipAddress == ip && collector == AwaitingCountry
      ensures country == Fetching
    {
      ipAddress := ip;
      collector := AwaitingCountry;
    }

    /** The callback run when the country lookup succeeds. */
    method CountryResolved(c: string)
      requires Valid() && collector == AwaitingCountry
      modifies this`country, this`collector
      ensures Valid()
      ensures country == c && ipAddress == old(ipAddress) && collector == Settled
    {
      country := c;
      collector := Settled;
    }

    /** The catch-all callback: any failure of the chain marks both fields unavailable. */
    method LookupFailed()
      requires Valid() && (collector == AwaitingIp || collector == AwaitingCountry)
      modifies this`ipAddress, this`country, this`collector
      ensures Valid()
      ensures ipAddress == Unavailable && country == Unavailable && collector == Settled
    {
      ipAddress := Unavailable;
      country := Unavailable;
      collector := Settled;
    }

    /** The chain runs whichever callback the settlement of its pending lookup calls for. */
    method OnSettle(o: Settlement)
      requires Valid()
      modifies this`ipAddress, this`country, this`collector
      ensures Valid()
      ensures UserInfo() == Settle(old(UserInfo()), o)
    {
      match (collector, o)
      case (AwaitingIp, Fulfilled(ip)) => IpResolved(ip);
      case (AwaitingCountry, Fulfilled(c)) => CountryResolved(c);
      case (AwaitingIp, Rejected) => LookupFailed();
      case (AwaitingCountry, Rejected) => LookupFailed();
      case _ =>
    }

    /** The callbacks the chain runs within one poll interval, in order. */
    method SettleBatch(batch: seq<Settlement>)
      requires Valid()
      modifies this`ipAddress, this`country, this`collector
      ensures Valid()
      ensures UserInfo() == Run(old(UserInfo()), batch)
    {
      ghost var before := UserInfo();
      var k := 0;
      while k < |batch|
        invariant Valid()
        invariant 0 <= k <= |batch|
        invariant UserInfo() == Run(before, batch[..k])
      {
        RunSnoc(before, batch[..k], batch[k]);
        assert batch[..k + 1] == batch[..k] + [batch[k]];
        OnSettle(batch[k]);
        k := k + 1;
      }
      assert batch[..k] == batch;
    }

    /** `_waitForUserInfo`: polls the fields at once and after every tick until both have left
        the sentinel or the timeout is reached. The wait itself writes nothing; the fields change
        only by the chain's settlements that arrive while it waits. */
    method WaitForUserInfo(arrivals: seq<seq<Settlement>>) returns (ticks: nat)
      requires Valid()
      modifies this`ipAddress, this`country, this`collector
      ensures Valid()
      ensures ticks == WaitTicks(old(UserInfo()), arrivals)
      ensures UserInfo() == Replay(old(UserInfo()), arrivals, ticks)
    {
      ghost var start := UserInfo();
      ticks := 0;
      while (ipAddress == Fetching || country == Fetching) && ticks < MaxTicks
        invariant Valid()
        invariant ticks <= MaxTicks
        invariant UserInfo() == Replay(start, arrivals, ticks)
        invariant forall j :: 0 <= j < ticks ==> !Ready(Replay(start, arrivals, j))
        decreases MaxTicks - ticks
      {
        SettleBatch(if ticks < |arrivals| then arrivals[ticks] else []);
        ticks := ticks + 1;
      }
      WaitTicksUnique(start, arrivals, ticks);
    }

    /** The text `sendMessage` builds: the prefix and the entry lines, then, when collection is
        on, the info block with the fields as the wait leaves them, then the suffix. */
    method ComposeMessage(entries: seq<Entry>, arrivals: seq<seq<Settlement>>,
                          prefix: string := DefaultPrefix, suffix: string := DefaultSuffix)
      returns (text: string)
      requires Valid()
      modifies this`ipAddress, this`country, this`collector
      ensures Valid()
      ensures text == Compose(entries, prefix, suffix, collectUserInfo, Info())
      ensures collectUserInfo ==>
        UserInfo() == Replay(old(UserInfo()), arrivals, WaitTicks(old(UserInfo()), arrivals))
      ensures !collectUserInfo ==> UserInfo() == old(UserInfo())
    {
      text := AppendEntries(prefix, entries);
      if collectUserInfo {
        var _ := WaitForUserInfo(arrivals);
        text := text + InfoBlock(Info());
      }
      text := text + suffix;
    }
  }
}
