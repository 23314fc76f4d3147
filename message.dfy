/** The text of an outbound message: a prefix, one `key: value` line per record entry in the
    record's order, an optional block of five user-info lines, and a suffix. */
module MessageText {
  import opened Options
  import opened Strings

  const DefaultPrefix := "\U{1F525}====== Message ======\U{1F525}\n"
  const DefaultSuffix := "=====================\n"

  const InfoHeader := "======= User's Info ======="
  const IpLabel := "\U{1F4CD} IP: "
  const CountryLabel := "\U{1F30D} Country: "
  const TimezoneLabel := "\U{23F0} Timezone: "
  const BrowserLabel := "\U{1F30E} Browser: "
  const UserAgentLabel := "\U{1F4F1} User Agent: "

  /** One record entry: a key and its value, both already rendered as text. */
  type Entry = (string, string)

  /** The five user-info values as they stand when the message is composed. */
  datatype Info = Info(ipAddress: string, country: string, timezone: string, browser: string, userAgent: string)

  /** The text of an entry's line, without its line feed. */
  function EntryText(e: Entry): string {
    e.0 + ": " + e.1
  }

  /** An entry's line ends with a line feed, and the text before it reads back as the entry
      when the key has no colon. */
  function EntryLine(e: Entry): (line: string)
    ensures |line| > 0 && line[|line| - 1] == '\n'
    ensures ':' !in e.0 ==> ParseEntry(line[..|line| - 1]) == Some(e)
  {
    var line := EntryText(e) + "\n";
    assert line[..|line| - 1] == EntryText(e);
    assert ':' !in e.0 ==> ParseEntry(EntryText(e)) == Some(e) by {
      if ':' !in e.0 {
        ParseEntryText(e);
      }
    }
    line
  }

  /** The entry lines of a record, in the record's order. */
  function EntryLines(entries: seq<Entry>): (text: string)
    ensures text == "" <==> entries == []
    ensures entries != [] ==> text[|text| - 1] == '\n'
  {
    if entries == [] then "" else EntryLine(entries[0]) + EntryLines(entries[1..])
  }

  function EntryTexts(entries: seq<Entry>): seq<string> {
    seq(|entries|, k requires 0 <= k < |entries| => EntryText(entries[k]))
  }

  /** The info block as the source builds it: the header and the five labelled lines of
      `InfoLines`, each followed by a line feed. */
  function InfoBlock(info: Info): (block: string)
    ensures block == JoinLines(InfoLines(info))
  {
    var ls := InfoLines(info);
    JoinSixLines(ls[0], ls[1], ls[2], ls[3], ls[4], ls[5]);
    assert ls == [ls[0], ls[1], ls[2], ls[3], ls[4], ls[5]];
    (InfoHeader + "\n") +
    (IpLabel + info.ipAddress + "\n") +
    (CountryLabel + info.country + "\n") +
    (TimezoneLabel + info.timezone + "\n") +
    (BrowserLabel + info.browser + "\n") +
    (UserAgentLabel + info.userAgent + "\n")
  }

  /** The lines the info block is meant to consist of, in their fixed order. */
  function InfoLines(info: Info): seq<string> {
    [InfoHeader,
     IpLabel + info.ipAddress,
     CountryLabel + info.country,
     TimezoneLabel + info.timezone,
     BrowserLabel + info.browser,
     UserAgentLabel + info.userAgent]
  }

  /** The whole message text of `sendMessage`. */
  function Compose(entries: seq<Entry>, prefix: string, suffix: string, collectUserInfo: bool, info: Info): (text: string)
    ensures prefix <= text
    ensures |suffix| <= |text| && text[|text| - |suffix|..] == suffix
  {
    prefix + EntryLines(entries) + (if collectUserInfo then InfoBlock(info) else "") + suffix
  }

  /** The loop of `sendMessage` that appends one line per entry to the text built so far. */
  method AppendEntries(text: string, entries: seq<Entry>) returns (r: string)
    ensures r == text + EntryLines(entries)
  {
    r := text;
    var i := 0;
    while i < |entries|
      invariant 0 <= i <= |entries|
      invariant r == text + EntryLines(entries[..i])
    {
      AppendOneEntry(text, entries, i);
      r := r + EntryLine(entries[i]);
      i := i + 1;
    }
    assert entries[..i] == entries;
  }

  /** Entry lines of two records placed one after the other are the two texts concatenated:
      the lines follow the record's order. */
  lemma {:induction false} EntryLinesAppend(a: seq<Entry>, b: seq<Entry>)
    ensures EntryLines(a + b) == EntryLines(a) + EntryLines(b)
    decreases |a|
  {
    if a == [] {
      assert a + b == b;
    } else {
      assert (a + b)[1..] == a[1..] + b;
      EntryLinesAppend(a[1..], b);
    }
  }

  /** One turn of the loop of `AppendEntries`. */
  lemma AppendOneEntry(text: string, entries: seq<Entry>, i: nat)
    requires i < |entries|
    ensures text + EntryLines(entries[..i]) + EntryLine(entries[i]) == text + EntryLines(entries[..i + 1])
  {
    var done, line := EntryLines(entries[..i]), EntryLine(entries[i]);
    assert entries[..i + 1] == entries[..i] + [entries[i]];
    EntryLinesAppend(entries[..i], [entries[i]]);
    assert [entries[i]][1..] == [];
    assert EntryLines([entries[i]]) == line;
    assert text + done + line == text + (done + line);
  }

  /** Entry `i` contributes exactly its own line, after the lines of all entries before it and
      before the lines of all entries after it. */
  lemma EntryInPlace(entries: seq<Entry>, i: nat)
    requires i < |entries|
    ensures EntryLines(entries) == EntryLines(entries[..i]) + EntryLine(entries[i]) + EntryLines(entries[i + 1..])
  {
    var before, rest, after := entries[..i], entries[i..], entries[i + 1..];
    assert entries == before + rest;
    assert rest[1..] == after;
    EntryLinesAppend(before, rest);
    var a, b, c := EntryLines(before), EntryLine(entries[i]), EntryLines(after);
    assert EntryLines(rest) == b + c;
    assert a + (b + c) == a + b + c;
  }

  /** The entry lines are the entries' texts, each on a line of its own. */
  lemma {:induction false} EntryLinesAreLines(entries: seq<Entry>)
    ensures EntryLines(entries) == JoinLines(EntryTexts(entries))
    decreases |entries|
  {
    if entries != [] {
      EntryLinesAreLines(entries[1..]);
      assert EntryTexts(entries)[1..] == EntryTexts(entries[1..]);
    }
  }

  /** Neither key nor value of any entry spans a line feed. */
  predicate SingleLineEntries(entries: seq<Entry>) {
    forall k :: 0 <= k < |entries| ==> '\n' !in entries[k].0 && '\n' !in entries[k].1
  }

  predicate SingleLineInfo(info: Info) {
    '\n' !in info.ipAddress && '\n' !in info.country && '\n' !in info.timezone &&
    '\n' !in info.browser && '\n' !in info.userAgent
  }

  /** Read line by line, the info block is the header followed by exactly five lines: IP,
      country, timezone, browser and user agent, in that order. */
  lemma InfoBlockLines(info: Info)
    requires SingleLineInfo(info)
    ensures SplitLines(InfoBlock(info)) == [InfoHeader,
      IpLabel + info.ipAddress, CountryLabel + info.country, TimezoneLabel + info.timezone,
      BrowserLabel + info.browser, UserAgentLabel + info.userAgent]
  {
    InfoLinesSingle(info);
    SplitJoinLines(InfoLines(info));
  }

  lemma InfoLinesSingle(info: Info)
    requires SingleLineInfo(info)
    ensures SingleLines(InfoLines(info))
  {
    var ls := InfoLines(info);
    forall k | 0 <= k < 6
      ensures '\n' !in ls[k]
    {
    }
  }

  lemma SingleLineTexts(entries: seq<Entry>)
    requires SingleLineEntries(entries)
    ensures SingleLines(EntryTexts(entries))
  {
    forall k | 0 <= k < |entries|
      ensures '\n' !in EntryTexts(entries)[k]
    {
      assert EntryTexts(entries)[k] == entries[k].0 + ": " + entries[k].1;
    }
  }

  /** The message text is its lines joined, when prefix and suffix are whole lines. */
  lemma ComposeIsJoin(entries: seq<Entry>, prefixLines: seq<string>, suffixLines: seq<string>, collectUserInfo: bool, info: Info)
    ensures Compose(entries, JoinLines(prefixLines), JoinLines(suffixLines), collectUserInfo, info) ==
      JoinLines(prefixLines + EntryTexts(entries) + (if collectUserInfo then InfoLines(info) else []) + suffixLines)
  {
    var infoLines := if collectUserInfo then InfoLines(info) else [];
    var front := prefixLines + EntryTexts(entries);
    EntryLinesAreLines(entries);
    assert JoinLines(infoLines) == if collectUserInfo then InfoBlock(info) else "";
    JoinLinesAppend(prefixLines, EntryTexts(entries));
    JoinLinesAppend(front, infoLines);
    JoinLinesAppend(front + infoLines, suffixLines);
  }

  /** Read line by line, a message whose prefix and suffix are whole lines is the prefix's lines,
      one line per entry in the record's order, the six info lines only when user info is
      collected, and the suffix's lines. */
  lemma ComposeLines(entries: seq<Entry>, prefixLines: seq<string>, suffixLines: seq<string>, collectUserInfo: bool, info: Info)
    requires SingleLines(prefixLines) && SingleLines(suffixLines)
    requires SingleLineEntries(entries) && SingleLineInfo(info)
    ensures SplitLines(Compose(entries, JoinLines(prefixLines), JoinLines(suffixLines), collectUserInfo, info)) ==
      prefixLines + EntryTexts(entries) + (if collectUserInfo then InfoLines(info) else []) + suffixLines
  {
    var all := prefixLines + EntryTexts(entries) + (if collectUserInfo then InfoLines(info) else []) + suffixLines;
    ComposeIsJoin(entries, prefixLines, suffixLines, collectUserInfo, info);
    SingleLineTexts(entries);
    InfoLinesSingle(info);
    assert SingleLines(all);
    SplitJoinLines(all);
  }

  /** Reads `key: value` back, splitting at the first colon. */
  function ParseEntry(line: string): Option<Entry> {
    var i := Find(line, ':');
    if i + 1 < |line| && line[i + 1] == ' ' then Some((line[..i], line[i + 2..])) else None
  }

  /** Reads a record back from its lines; fails if any line is not an entry line. */
  function ParseEntries(lines: seq<string>): Option<seq<Entry>> {
    if lines == [] then
      Some([])
    else
      match (ParseEntry(lines[0]), ParseEntries(lines[1..]))
      case (Some(e), Some(es)) => Some([e] + es)
      case _ => None
  }

  /** Keys without colons and keys and values without line feeds. */
  predicate Readable(entries: seq<Entry>) {
    SingleLineEntries(entries) && forall k :: 0 <= k < |entries| ==> ':' !in entries[k].0
  }

  lemma ParseEntryText(e: Entry)
    requires ':' !in e.0
    ensures ParseEntry(EntryText(e)) == Some(e)
  {
    var line := EntryText(e);
    assert forall j :: 0 <= j < |e.0| ==> line[j] == e.0[j];
    assert line[|e.0|] == ':';
    assert line[..|e.0|] == e.0;
    assert line[|e.0| + 2..] == e.1;
  }

  /** Reading the entry lines back line by line gives the record, entry for entry and in order. */
  lemma {:induction false} EntryLinesRoundTrip(entries: seq<Entry>)
    requires Readable(entries)
    ensures ParseEntries(SplitLines(EntryLines(entries))) == Some(entries)
  {
    EntryLinesAreLines(entries);
    SingleLineTexts(entries);
    SplitJoinLines(EntryTexts(entries));
    ParseEntriesOfTexts(entries);
  }

  lemma {:induction false} ParseEntriesOfTexts(entries: seq<Entry>)
    requires Readable(entries)
    ensures ParseEntries(EntryTexts(entries)) == Some(entries)
    decreases |entries|
  {
    if entries != [] {
      ParseEntryText(entries[0]);
      assert EntryTexts(entries)[1..] == EntryTexts(entries[1..]);
      ParseEntriesOfTexts(entries[1..]);
      assert [entries[0]] + entries[1..] == entries;
    }
  }

  /** The example of a two-entry record without user info. */
  lemma TwoEntryExample(info: Info)
    ensures Compose([("A", "1"), ("B", "2")], "P\n", "S\n", false, info) == "P\nA: 1\nB: 2\nS\n"
  {
  }
}
