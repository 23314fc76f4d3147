# TelegramHandler: browser label, message text and user-info wait

This project models three small, deterministic parts of the `TelegramHandler` class of
`index.js`. It proves properties of each part in Dafny.

- **Browser label** (`_detectBrowser`). The user-agent string goes through an ordered chain of
  `indexOf(token) > -1` tests, and the first test that matches picks the label. When no test
  matches, the label stays at the initial `"Detecting..."`. Module `BrowserDetection` models it
  as a pure function `Classify`. `Strings.IndexOf` models `indexOf`. A table of rules
  (`Rules`, `FirstMatch`) gives an independent reference definition of "first match wins".
- **Message text** (the string-building part of `sendMessage`). The text is the prefix, then one
  `key: value` line per record entry in the record's order, then (unless `collectUserInfo` is
  `false`) a header and five user-info lines, then the suffix. Module `MessageText` models this
  with the record as a sequence of key/value pairs. It has a specification function `Compose`,
  the accumulation loop as a method `AppendEntries`, and a line-by-line reading of the text
  (`SplitLines`, `ParseEntries`) as its inverse.
- **User-info fields and the wait** (`_collectUserInfo`, `_waitForUserInfo`). `ipAddress` and
  `country` start at `"Fetching..."`. A detached promise chain writes the looked-up IP, then
  the looked-up country. Any failure writes `"Unavailable"` to both fields. A message waits
  until both fields differ from `"Fetching..."`, polling every 100 ms for at most 5000 ms.
  Module `UserInfoCollector` models the chain as a state machine (`Stage`, `Settle`).
  Time is counted in ticks of one poll interval, at most `MaxTicks` = 5000 / 100 = 50. Between
  two polls the chain may settle nothing, one lookup, or both, so the wait's schedule gives one
  batch of settlements per interval. Module `Handler` holds the class `TelegramHandler`, whose
  fields these callbacks and the wait loop update in place.

The `catch` callback (index.js:122-126) writes `Unavailable` to both fields, including an IP
that was already written. The model follows this: `Settle`, `TelegramHandler.LookupFailed` and
the lemmas `FailureOverwritesIp` and `RunOutcomes` state it.

## Model

| member | source | states |
|---|---|---|
| `Strings.IndexOf` | index.js:94-107 | `indexOf`: the result is -1 exactly when the token occurs nowhere; otherwise the token occurs there and at no earlier position |
| `Strings.Contains` | index.js:94-107 | `indexOf(token) > -1`: true exactly when the token occurs somewhere in the user agent |
| `BrowserDetection.Classify` | index.js:92-109 | the label is always one of the eight possible labels (the sentinel and the seven browser names) |
| `BrowserDetection.FirstMatch` | index.js:94-108 | the index of the first rule of the chain that the user agent matches: that rule matches and no earlier rule does; `|rules|` when none matches |
| `BrowserDetection.ClassifyIsFirstMatch` | index.js:92-109 | the if-chain equals the rule table read in order: the label of the first matching rule, or `"Detecting..."` when none matches |
| `BrowserDetection.FirefoxWins` | index.js:94-95 | a user agent containing `Firefox` is `Mozilla Firefox` whatever else it contains |
| `BrowserDetection.EdgeBeforeChrome` | index.js:98-105 | a user agent with both `Edge` and `Chrome` and none of the earlier tokens is `Microsoft Edge` |
| `BrowserDetection.ChromeBeforeSafari` | index.js:98-107 | a user agent with both `Chrome` and `Safari` and none of the earlier tokens is `Google Chrome/Chromium` |
| `BrowserDetection.OperaBeforeChrome` | index.js:94-99 | `OPR`, with neither `Firefox` nor `SamsungBrowser`, gives `Opera` whether or not `Chrome` is present |
| `BrowserDetection.UndetectedIffNoToken` | index.js:94-108 | the label stays `"Detecting..."` if and only if none of the eight tokens occurs |
| `MessageText.EntryLine` | index.js:51 | an entry's line ends with a line feed, and the text before it reads back as that key and value when the key has no colon |
| `MessageText.EntryLines` | index.js:50-52 | the entry lines are empty exactly for an empty record, and otherwise end with a line feed |
| `MessageText.InfoBlock` | index.js:57-62 | the info block is the header and the five labelled lines (IP, country, timezone, browser, user agent), each followed by a line feed |
| `MessageText.Compose` | index.js:47-65 | the text always starts with the prefix and ends with the suffix |
| `MessageText.AppendEntries` | index.js:48-52 | the `for ... of` loop appends exactly the record's entry lines, in order, to the text built so far |
| `MessageText.EntryLinesAppend` | index.js:50-52 | the entry lines of two records placed one after the other are the first record's lines followed by the second's |
| `MessageText.EntryInPlace` | index.js:51 | entry `i` contributes exactly `key: value` and a line feed, after every earlier entry and before every later one |
| `MessageText.EntryLinesAreLines` | index.js:50-52 | the entry lines are the entries' `key: value` texts, one per line |
| `MessageText.EntryLinesRoundTrip` | index.js:50-52 | reading the entry lines back line by line gives the record itself, entry by entry and in order, when keys have no colon and nothing spans a line feed |
| `MessageText.InfoBlockLines` | index.js:57-62 | read line by line, the info block is the header and then exactly five lines: IP, country, timezone, browser and user agent, in that order |
| `MessageText.ComposeLines` | index.js:47-65 | read line by line, the text is the prefix's lines, one line per entry in order, the header and five info lines only when `collectUserInfo` is on, and the suffix's lines; with collection off there is no info line |
| `MessageText.TwoEntryExample` | index.js:47-65 | record `{A: 1, B: 2}` with prefix `P\n`, suffix `S\n` and collection off gives exactly `P\nA: 1\nB: 2\nS\n` |
| `UserInfoCollector.Start` | index.js:10-21 | both fields start at `"Fetching..."`, so the exit test is false; the chain is started exactly when `collectUserInfo` is on |
| `UserInfoCollector.Ready` | index.js:131 | the wait's exit test, both fields differ from `"Fetching..."`; in any state the chain can reach it holds only once the chain has finished |
| `UserInfoCollector.Settle` | index.js:111-127 | one callback of the chain moves it forward (IP, then country) or to the finished stage, and never back |
| `UserInfoCollector.SettlePreservesInv` | index.js:111-127 | every callback keeps the invariant: both fields are at the sentinel until the IP is written, and the country stays there until then |
| `UserInfoCollector.CountryNotBeforeIp` | index.js:114-120 | while the IP lookup is still pending, no callback gives the country a looked-up value (only the sentinel or `Unavailable`) |
| `UserInfoCollector.FailureOverwritesIp` | index.js:122-125 | a failure of the country lookup sets both fields to `Unavailable`, replacing the IP already written, and makes the wait's exit test true |
| `UserInfoCollector.FailureMakesReady` | index.js:122-125 | a failure at either step of a running chain makes the wait's exit test true |
| `UserInfoCollector.RunOutcomes` | index.js:111-127 | every run of the chain, case by case: failure first gives both `Unavailable`; IP then country gives both looked-up values; IP then failure gives both `Unavailable`; after IP alone the country is still pending |
| `UserInfoCollector.IdleStaysFetching` | index.js:20-21 | with collection off the chain is never started and both fields stay `"Fetching..."` |
| `UserInfoCollector.WaitTicks` | index.js:129-147 | the wait returns within 50 ticks; it returns at the first poll where both fields have left the sentinel, and otherwise at the timeout |
| `UserInfoCollector.WaitImmediate` | index.js:131-134 | with both fields already resolved, the wait returns at once |
| `UserInfoCollector.WaitTimesOut` | index.js:143-146 | when the fields never resolve, the wait returns at the timeout, 50 ticks |
| `UserInfoCollector.FailedLookupEndsWait` | index.js:122-147 | if the IP lookup fails in the interval after poll `i`, within the timeout, the wait returns at poll `i + 1` with both fields `Unavailable` |
| `UserInfoCollector.BothLookupsInOneInterval` | index.js:114-139 | when both lookups succeed within the first poll interval, the wait returns at the first interval poll with both looked-up values |
| `Handler.TelegramHandler.constructor` | index.js:8-22 | both fields start at `"Fetching..."`; the browser label is `Classify` of the user agent; the chain is started only when `collectUserInfo` is on |
| `Handler.TelegramHandler.IpResolved` | index.js:114-117 | the IP callback writes the looked-up IP and moves on to the country lookup; the country is still `"Fetching..."` |
| `Handler.TelegramHandler.CountryResolved` | index.js:119-121 | the country callback writes the looked-up country, leaves the IP as it was, and finishes the chain |
| `Handler.TelegramHandler.LookupFailed` | index.js:122-126 | the failure callback writes `Unavailable` to both fields and finishes the chain |
| `Handler.TelegramHandler.OnSettle` | index.js:111-127 | the object's fields change exactly as `Settle` says, and the invariant is kept |
| `Handler.TelegramHandler.SettleBatch` | index.js:111-127 | the callbacks run within one poll interval change the fields exactly as `Run` of that batch says |
| `Handler.TelegramHandler.WaitForUserInfo` | index.js:129-147 | the loop stops at the poll `WaitTicks` gives (at most 50); the only changes while it waits are the batches of settlements the chain makes up to that poll |
| `Handler.TelegramHandler.ComposeMessage` | index.js:47-65 | the text is `Compose` of the record with the info fields as the wait leaves them; with collection off the wait is skipped and no field changes |

## Left out

- Delivery of the message and everything around it: the request to the messaging API, its JSON payload and response, and the error thrown on a failed response (index.js:67-89). This is network I/O.
- `initialize` (index.js:25-45): the remote configuration fetch and the check for delivery credentials. This is network I/O and configuration plumbing.
- The rest of the page: the form handler, the attempt counter, the secondary HTTP request, URL-parameter pre-fill and DOM wiring (index.js:150-304). None of it belongs to the handler's string or state logic.
- The lookups themselves (`fetch` and `response.json()`, index.js:112-118). The environment supplies each outcome as a `Settlement`. A lookup body without an `ip` or `country` property would store JavaScript's `undefined`. The model takes the looked-up value as a string.
- Real timers (`setInterval`, `setTimeout`). The wait counts abstract ticks of one poll interval. When the 50th poll and the timeout fall due at the same moment, both end the wait, so the model ends it at tick 50 either way.
- `navigator.userAgent` and `Intl.DateTimeFormat().resolvedOptions().timeZone` (index.js:12-13, 93). They are constructor parameters.
- `Handler.TelegramHandler.ComposeMessage`: the program reads `this.config.collectUserInfo !== false` again on every `sendMessage` (index.js:54), from the config object the caller passed and the handler keeps by reference (index.js:9). The model fixes the flag at construction. A caller that turns collection on after building the handler with it off makes the program wait the full 5 s and send `"Fetching..."` in both fields; the model does not represent that change of the shared config object.
- Concurrent `sendMessage` calls: each runs its own wait against the same fields. The model covers one wait at a time.
- `MessageText.Compose`, `MessageText.AppendEntries` and `Handler.TelegramHandler.ComposeMessage`: the record is the sequence that `Object.entries` yields. JavaScript lists integer-like keys first, in ascending order, and then the other keys in insertion order. That reordering is not modelled. Duplicate keys are not excluded, and values are taken as already converted to text.
- `Strings.IndexOf`: characters are Unicode scalar values rather than JavaScript's UTF-16 code units. Positions can differ for text outside the Basic Multilingual Plane. Whether an ASCII token occurs does not.
- `UserInfoCollector.Settle`: a settlement that arrives when the chain is finished or was never started changes nothing. In the program, no callback runs then.
