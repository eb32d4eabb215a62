/** The iCalendar feed: a writer of content lines, and a reader that splits at
    CRLF and undoes TEXT escaping (sections 3.1 and 3.3.11 of RFC 5545). */
module Ical {
  import opened Common
  import opened Digits
  import opened Instants

  // ---------------------------------------------------------------------
  // TEXT escaping
  // ---------------------------------------------------------------------

  /** strings.ReplaceAll of a one-character pattern. */
  function ReplaceAll(s: string, c: char, put: string): string {
    if s == "" then "" else (if s[0] == c then put else [s[0]]) + ReplaceAll(s[1..], c, put)
  }

  /** Four passes over the whole text, backslash first. */
  function Escape(s: string): string {
    ReplaceAll(ReplaceAll(ReplaceAll(ReplaceAll(s, '\\', "\\\\"), ',', "\\,"), ';', "\\;"), '\n', "\\n")
  }

  function EscapeChar(c: char): string {
    if c == '\n' then "\\n" else if c in "\\,;" then ['\\', c] else [c]
  }

  function EscapeEach(s: string): string {
    if s == "" then "" else EscapeChar(s[0]) + EscapeEach(s[1..])
  }

  function Unescape(s: string): string {
    if s == "" then ""
    else if s[0] == '\\' && |s| > 1 then [if s[1] in "nN" then '\n' else s[1]] + Unescape(s[2..])
    else [s[0]] + Unescape(s[1..])
  }

  lemma {:induction false} ReplaceAllOfConcat(a: string, b: string, c: char, put: string)
    ensures ReplaceAll(a + b, c, put) == ReplaceAll(a, c, put) + ReplaceAll(b, c, put)
  {
    if a == "" {
      assert a + b == b;
    } else {
      assert (a + b)[1..] == a[1..] + b;
      ReplaceAllOfConcat(a[1..], b, c, put);
    }
  }

  lemma EscapeOfConcat(a: string, b: string)
    ensures Escape(a + b) == Escape(a) + Escape(b)
  {
    hide ReplaceAll;
    var a1, b1 := ReplaceAll(a, '\\', "\\\\"), ReplaceAll(b, '\\', "\\\\");
    var a2, b2 := ReplaceAll(a1, ',', "\\,"), ReplaceAll(b1, ',', "\\,");
    var a3, b3 := ReplaceAll(a2, ';', "\\;"), ReplaceAll(b2, ';', "\\;");
    ReplaceAllOfConcat(a, b, '\\', "\\\\");
    ReplaceAllOfConcat(a1, b1, ',', "\\,");
    ReplaceAllOfConcat(a2, b2, ';', "\\;");
    ReplaceAllOfConcat(a3, b3, '\n', "\\n");
  }

  lemma ReplaceOne(x: char, c: char, put: string)
    ensures ReplaceAll([x], c, put) == if x == c then put else [x]
  {
    assert ReplaceAll([x][1..], c, put) == "";
  }

  lemma ReplaceTwo(x: char, y: char, c: char, put: string)
    ensures ReplaceAll([x, y], c, put) == (if x == c then put else [x]) + if y == c then put else [y]
  {
    assert [x, y][1..] == [y];
    ReplaceOne(y, c, put);
  }

  /** On a single character no pass disturbs what an earlier one inserted. */
  lemma EscapeOne(x: char)
    ensures Escape([x]) == EscapeChar(x)
  {
    hide ReplaceAll;
    ReplaceOne(x, '\\', "\\\\");
    ReplaceOne(x, ',', "\\,");
    ReplaceOne(x, ';', "\\;");
    ReplaceOne(x, '\n', "\\n");
    if x in "\\,;" {
      var two := ['\\', x];
      assert two == if x == '\\' then "\\\\" else if x == ',' then "\\," else "\\;";
      ReplaceTwo('\\', x, ',', "\\,");
      ReplaceTwo('\\', x, ';', "\\;");
      ReplaceTwo('\\', x, '\n', "\\n");
      assert ['\\'] + [x] == two;
    }
  }

  lemma {:induction false} PassesEscapeEachCharacter(s: string)
    ensures Escape(s) == EscapeEach(s)
  {
    if s == "" {
    } else {
      assert s == [s[0]] + s[1..];
      EscapeOfConcat([s[0]], s[1..]);
      EscapeOne(s[0]);
      PassesEscapeEachCharacter(s[1..]);
    }
  }

  lemma UnescapeOne(c: char, rest: string)
    ensures Unescape(EscapeChar(c) + rest) == [c] + Unescape(rest)
  {
    var s := EscapeChar(c) + rest;
    if |EscapeChar(c)| == 2 {
      assert s[0] == '\\' && s[1] == (if c == '\n' then 'n' else c) && s[2..] == rest;
    } else {
      assert s[0] == c && s[1..] == rest;
    }
  }

  lemma {:induction false} UnescapeEach(s: string)
    ensures Unescape(EscapeEach(s)) == s && '\n' !in EscapeEach(s)
  {
    if s == "" {
    } else {
      UnescapeEach(s[1..]);
      UnescapeOne(s[0], EscapeEach(s[1..]));
    }
  }

  lemma EscapeRoundTrip(s: string)
    ensures Unescape(Escape(s)) == s && '\n' !in Escape(s)
  {
    PassesEscapeEachCharacter(s);
    UnescapeEach(s);
  }

  // ---------------------------------------------------------------------
  // Times
  // ---------------------------------------------------------------------

  /** The layout 20060102T150405Z; anything below a second is dropped. */
  function FormatStamp(t: Instant): string {
    Padded(t.year, 4) + Padded(t.month, 2) + Padded(t.day, 2) + "T"
    + Padded(t.hour, 2) + Padded(t.minute, 2) + Padded(t.second, 2) + "Z"
  }

  function ToTheSecond(t: Instant): Instant { t.(nanos := 0) }

  function ParseStamp(s: string): Option<Instant> {
    if |s| != 16 || !DigitsAt(s, 0, 4) || !DigitsAt(s, 4, 2) || !DigitsAt(s, 6, 2) || s[8] != 'T'
       || !DigitsAt(s, 9, 2) || !DigitsAt(s, 11, 2) || !DigitsAt(s, 13, 2) || s[15] != 'Z' then None
    else
      var t := Instant(Number(s[0..4]), Number(s[4..6]), Number(s[6..8]), Number(s[9..11]), Number(s[11..13]),
                       Number(s[13..15]), 0);
      if ValidInstant(t) then Some(t) else None
  }

  lemma StampLayout(t: Instant)
    ensures var s := FormatStamp(t);
            && |s| == 16
            && s[0..4] == Padded(t.year, 4) && s[4..6] == Padded(t.month, 2) && s[6..8] == Padded(t.day, 2)
            && s[8] == 'T'
            && s[9..11] == Padded(t.hour, 2) && s[11..13] == Padded(t.minute, 2) && s[13..15] == Padded(t.second, 2)
            && s[15] == 'Z'
  {
    hide Padded;
  }

  lemma StampRoundTrip(t: Instant)
    requires ValidInstant(t)
    ensures ParseStamp(FormatStamp(t)) == Some(ToTheSecond(t))
  {
    hide FormatStamp, Padded, Pow10, Number;
    StampLayout(t);
    Powers();
    NumberOfPadded(t.year, 4);
    NumberOfPadded(t.month, 2);
    NumberOfPadded(t.day, 2);
    NumberOfPadded(t.hour, 2);
    NumberOfPadded(t.minute, 2);
    NumberOfPadded(t.second, 2);
  }

  lemma StampHasNoLF(t: Instant)
    ensures '\n' !in FormatStamp(t)
  {
  }

  // ---------------------------------------------------------------------
  // Content lines
  // ---------------------------------------------------------------------

  datatype Property = Property(name: string, value: string)

  function Line(p: Property): string {
    p.name + ":" + p.value
  }

  /** Every property as a line ended by CRLF. */
  function Written(ps: seq<Property>): string {
    if ps == [] then "" else Line(ps[0]) + "\r\n" + Written(ps[1..])
  }

  predicate HoldsCRLF(s: string) {
    exists i :: 0 <= i < |s| - 1 && s[i] == '\r' && s[i + 1] == '\n'
  }

  /** The lines of a document; text after the last CRLF is no line. */
  function SplitLines(s: string): (lines: seq<string>)
    ensures lines != [] && lines[0] != "" ==> s != "" && lines[0][0] == s[0]
  {
    if s == "" then []
    else if s[0] == '\r' && |s| > 1 && s[1] == '\n' then [""] + SplitLines(s[2..])
    else
      var rest := SplitLines(s[1..]);
      if rest == [] then [] else [[s[0]] + rest[0]] + rest[1..]
  }

  lemma {:induction false} SplitLinesHoldNoCRLF(s: string)
    ensures forall i :: 0 <= i < |SplitLines(s)| ==> !HoldsCRLF(SplitLines(s)[i])
    decreases |s|
  {
    if s == "" {
    } else if s[0] == '\r' && |s| > 1 && s[1] == '\n' {
      SplitLinesHoldNoCRLF(s[2..]);
    } else {
      SplitLinesHoldNoCRLF(s[1..]);
      var rest := SplitLines(s[1..]);
      if rest != [] {
        var line := [s[0]] + rest[0];
        forall i | 0 <= i < |line| - 1
          ensures !(line[i] == '\r' && line[i + 1] == '\n')
        {
          if i == 0 {
            assert line[1] == s[1];
          } else {
            assert line[i] == rest[0][i - 1] && line[i + 1] == rest[0][i];
          }
        }
      }
    }
  }

  lemma TailHoldsNoCRLF(s: string, k: nat)
    requires k <= |s| && !HoldsCRLF(s)
    ensures !HoldsCRLF(s[k..])
  {
    forall i | 0 <= i < |s| - k - 1
      ensures !(s[k..][i] == '\r' && s[k..][i + 1] == '\n')
    {
      assert s[k..][i] == s[k + i] && s[k..][i + 1] == s[k + i + 1];
    }
  }

  lemma {:induction false} SplitFirstLine(line: string, rest: string)
    requires !HoldsCRLF(line)
    ensures SplitLines(line + "\r\n" + rest) == [line] + SplitLines(rest)
    decreases |line|
  {
    var s := line + "\r\n" + rest;
    if line == "" {
      assert s[2..] == rest;
    } else {
      var tail := line[1..];
      TailHoldsNoCRLF(line, 1);
      SplitFirstLine(tail, rest);
      assert s[1..] == tail + "\r\n" + rest;
      assert s[0] == line[0] && s[1] == if |line| > 1 then line[1] else '\r';
      assert !(line[0] == '\r' && |line| > 1 && line[1] == '\n');
      assert [line[0]] + tail == line;
    }
  }

  // ---------------------------------------------------------------------
  // The writer
  // ---------------------------------------------------------------------

  /** endsAt is ZERO when the source set none. */
  datatype Event = Event(uid: string, title: string, startsAt: Instant, endsAt: Instant, venueName: string,
                         venueAddr: string,
    url: string, description: string)

  const ZERO := Instant(1, 1, 1, 0, 0, 0, 0)

  function BuildLocation(name: string, addr: string): string {
    if name == "" && addr == "" then ""
    else if name == "" then addr
    else if addr == "" then name
    else name + ", " + addr
  }

  /** The name comes first; a comma only between two. */
  lemma LocationText(name: string, addr: string)
    ensures name != "" && addr != "" ==> BuildLocation(name, addr) == name + ", " + addr
    ensures addr == "" ==> BuildLocation(name, addr) == name
    ensures name == "" ==> BuildLocation(name, addr) == addr
  {
  }

  function Optional(given: bool, name: string, value: string): seq<Property> {
    if given then [Property(name, value)] else []
  }

  function Times(now: Instant, e: Event): seq<Property> {
    [Property("UID", e.uid), Property("DTSTAMP", FormatStamp(now)), Property("DTSTART", FormatStamp(e.startsAt))]
    + Optional(e.endsAt != ZERO, "DTEND", FormatStamp(e.endsAt))
  }

  function Texts(e: Event): seq<Property> {
    var location := BuildLocation(e.venueName, e.venueAddr);
    Optional(e.title != "", "SUMMARY", Escape(e.title))
    + Optional(location != "", "LOCATION", Escape(location))
    + Optional(e.url != "", "URL", e.url)
    + Optional(e.description != "", "DESCRIPTION", Escape(e.description))
  }

  function Fields(now: Instant, e: Event): seq<Property> {
    Times(now, e) + Texts(e)
  }

  const OPEN := Property("BEGIN", "VEVENT")
  const CLOSE := Property("END", "VEVENT")
  const LAST := Property("END", "VCALENDAR")

  function EventProperties(now: Instant, events: seq<Event>): seq<Property> {
    if events == [] then []
    else [OPEN] + Fields(now, events[0]) + [CLOSE] + EventProperties(now, events[1..])
  }

  function Header(calName: string): seq<Property> {
    [Property("BEGIN", "VCALENDAR"), Property("VERSION", "2.0"),
     Property("PRODID", "-//Here's What's Happening//Calendar//EN"),
     Property("METHOD", "PUBLISH"), Property("X-PUBLISHED-TTL", "PT1H"), Property("NAME", Escape(calName)),
     Property("X-WR-CALNAME", Escape(calName))]
  }

  function Calendar(calName: string, now: Instant, events: seq<Event>): seq<Property> {
    Header(calName) + EventProperties(now, events) + [LAST]
  }

  lemma {:induction false} WrittenSnoc(ps: seq<Property>, p: Property)
    ensures Written(ps + [p]) == Written(ps) + Line(p) + "\r\n"
  {
    hide Line;
    if ps == [] {
      assert ps + [p] == [p];
    } else {
      assert (ps + [p])[1..] == ps[1..] + [p];
      WrittenSnoc(ps[1..], p);
    }
  }

  lemma {:induction false} EventPropertiesSnoc(now: Instant, events: seq<Event>, e: Event)
    ensures EventProperties(now, events + [e]) == EventProperties(now, events) + ([OPEN] + Fields(now, e) + [CLOSE])
  {
    hide Fields;
    if events == [] {
      assert events + [e] == [e];
    } else {
      assert (events + [e])[1..] == events[1..] + [e];
      EventPropertiesSnoc(now, events[1..], e);
    }
  }

  /** The text built so far, and the properties it spells. */
  class Builder {
    var text: string
    ghost var spelt: seq<Property>

    ghost predicate Valid() reads this {
      text == Written(spelt)
    }

    constructor ()
      ensures Valid() && spelt == []
    {
      text, spelt := "", [];
    }

    method WriteLine(name: string, value: string)
      requires Valid()
      modifies this
      ensures Valid() && spelt == old(spelt) + [Property(name, value)]
    {
      hide Written;
      WrittenSnoc(spelt, Property(name, value));
      text := text + (name + ":" + value);
      text := text + "\r\n";
      spelt := spelt + [Property(name, value)];
    }

    method WriteHeader(calName: string)
      requires Valid()
      modifies this
      ensures Valid() && spelt == old(spelt) + Header(calName)
    {
      hide Escape;
      WriteLine("BEGIN", "VCALENDAR");
      WriteLine("VERSION", "2.0");
      WriteLine("PRODID", "-//Here's What's Happening//Calendar//EN");
      WriteLine("METHOD", "PUBLISH");
      WriteLine("X-PUBLISHED-TTL", "PT1H");
      WriteLine("NAME", Escape(calName));
      WriteLine("X-WR-CALNAME", Escape(calName));
    }

    method WriteIf(given: bool, name: string, value: string)
      requires Valid()
      modifies this
      ensures Valid() && spelt == old(spelt) + Optional(given, name, value)
    {
      if given {
        WriteLine(name, value);
      }
    }

    method WriteTimes(stamp: string, e: Event, ghost now: Instant)
      requires Valid() && stamp == FormatStamp(now)
      modifies this
      ensures Valid() && spelt == old(spelt) + Times(now, e)
    {
      hide FormatStamp, Valid, Optional;
      WriteLine("UID", e.uid);
      WriteLine("DTSTAMP", stamp);
      WriteLine("DTSTART", FormatStamp(e.startsAt));
      WriteIf(e.endsAt != ZERO, "DTEND", FormatStamp(e.endsAt));
    }

    method WriteTexts(e: Event)
      requires Valid()
      modifies this
      ensures Valid() && spelt == old(spelt) + Texts(e)
    {
      hide Escape, BuildLocation, Valid, Optional;
      WriteIf(e.title != "", "SUMMARY", Escape(e.title));
      var location := BuildLocation(e.venueName, e.venueAddr);
      WriteIf(location != "", "LOCATION", Escape(location));
      WriteIf(e.url != "", "URL", e.url);
      WriteIf(e.description != "", "DESCRIPTION", Escape(e.description));
    }

    method WriteEvent(stamp: string, e: Event, ghost now: Instant)
      requires Valid() && stamp == FormatStamp(now)
      modifies this
      ensures Valid() && spelt == old(spelt) + ([OPEN] + Fields(now, e) + [CLOSE])
    {
      hide FormatStamp, Valid, Times, Texts;
      WriteLine("BEGIN", "VEVENT");
      WriteTimes(stamp, e, now);
      WriteTexts(e);
      WriteLine("END", "VEVENT");
    }
  }

  method FormatCalendar(calName: string, now: Instant, events: seq<Event>) returns (text: string)
    ensures text == Written(Calendar(calName, now, events))
  {
    hide Escape, FormatStamp, Fields, Header, Written;
    var b := new Builder();
    b.WriteHeader(calName);
    assert [] + Header(calName) == Header(calName);
    var stamp := FormatStamp(now);
    for i := 0 to |events|
      invariant b.Valid() && b.spelt == Header(calName) + EventProperties(now, events[..i])
    {
      assert events[..i + 1] == events[..i] + [events[i]];
      EventPropertiesSnoc(now, events[..i], events[i]);
      b.WriteEvent(stamp, events[i], now);
    }
    assert events[..|events|] == events;
    b.WriteLine("END", "VCALENDAR");
    text := b.text;
  }

  // ---------------------------------------------------------------------
  // The reader
  // ---------------------------------------------------------------------

  datatype Entry = Entry(uid: string, stamp: Instant, startsAt: Instant, endsAt: Instant, title: string,
                         location: string, url: string, description: string)

  datatype Feed = Feed(name: string, entries: seq<Entry>)

  const BLANK := Entry("", ZERO, ZERO, ZERO, "", "", "", "")

  function ParseLine(s: string): Option<Property> {
    match IndexOf(s, ':')
    case None => None
    case Some(k) => Some(Property(s[..k], s[k + 1..]))
  }

  function ParseLines(lines: seq<string>): (r: Option<seq<Property>>)
    ensures r.Some? ==> |r.value| == |lines| && forall i :: 0 <= i < |lines| ==> ParseLine(lines[i]) == Some(r.value[i])
  {
    if lines == [] then Some([])
    else
      match (ParseLine(lines[0]), ParseLines(lines[1..]))
      case (Some(p), Some(ps)) => Some([p] + ps)
      case _ => None
  }

  /** One property of an event; a property the reader does not know is skipped. */
  function Noted(e: Entry, p: Property): Option<Entry> {
    if p.name == "UID" then Some(e.(uid := p.value))
    else if p.name == "DTSTAMP" then (match ParseStamp(p.value) case Some(t) => Some(e.(stamp := t)) case None => None)
    else if p.name == "DTSTART"
        then (match ParseStamp(p.value) case Some(t) => Some(e.(startsAt := t)) case None => None)
    else if p.name == "DTEND" then (match ParseStamp(p.value) case Some(t) => Some(e.(endsAt := t)) case None => None)
    else if p.name == "SUMMARY" then Some(e.(title := Unescape(p.value)))
    else if p.name == "LOCATION" then Some(e.(location := Unescape(p.value)))
    else if p.name == "URL" then Some(e.(url := p.value))
    else if p.name == "DESCRIPTION" then Some(e.(description := Unescape(p.value)))
    else Some(e)
  }

  /** The event whose properties come next, and what follows its END line. */
  function ReadEntry(ps: seq<Property>, e: Entry): (r: Option<(Entry, seq<Property>)>)
    ensures r.Some? ==> |r.value.1| < |ps|
    decreases |ps|
  {
    if ps == [] then None
    else if ps[0] == CLOSE then Some((e, ps[1..]))
    else
      match Noted(e, ps[0])
      case None => None
      case Some(noted) => ReadEntry(ps[1..], noted)
  }

  function ReadEntries(ps: seq<Property>): Option<seq<Entry>>
    decreases |ps|
  {
    if ps == [LAST] then Some([])
    else if ps == [] || ps[0] != OPEN then None
    else
      match ReadEntry(ps[1..], BLANK)
      case None => None
      case Some((e, rest)) =>
        match ReadEntries(rest)
        case None => None
        case Some(es) => Some([e] + es)
  }

  /** The calendar's name, if its seven header lines are as they should be. */
  function ReadHeader(ps: seq<Property>): (name: Option<string>)
    ensures name.Some? ==> |ps| >= 7
  {
    if |ps| < 7 || ps[0] != Property("BEGIN", "VCALENDAR") || ps[1] != Property("VERSION", "2.0")
       || ps[2] != Property("PRODID", "-//Here's What's Happening//Calendar//EN")
       || ps[3] != Property("METHOD", "PUBLISH")
       || ps[4] != Property("X-PUBLISHED-TTL", "PT1H") || ps[5].name != "NAME"
       || ps[6] != Property("X-WR-CALNAME", ps[5].value) then None
    else Some(Unescape(ps[5].value))
  }

  lemma HeaderComesBack(calName: string, rest: seq<Property>)
    ensures ReadHeader(Header(calName) + rest) == Some(calName)
    ensures |Header(calName)| == 7
  {
    hide Escape, Unescape;
    EscapeRoundTrip(calName);
    var ps := Header(calName) + rest;
    assert forall i :: 0 <= i < 7 ==> ps[i] == Header(calName)[i];
  }

  function ReadFeed(ps: seq<Property>): Option<Feed> {
    match ReadHeader(ps)
    case None => None
    case Some(name) =>
      match ReadEntries(ps[7..])
      case None => None
      case Some(es) => Some(Feed(name, es))
  }

  function ParseCalendar(text: string): Option<Feed> {
    match ParseLines(SplitLines(text))
    case None => None
    case Some(ps) => ReadFeed(ps)
  }

  // ---------------------------------------------------------------------
  // What the reader recovers
  // ---------------------------------------------------------------------

  /** Everything an event says to a subscriber: times to the second, and the
      two halves of the venue joined. */
  function Said(now: Instant, e: Event): Entry {
    Entry(e.uid, ToTheSecond(now), ToTheSecond(e.startsAt), ToTheSecond(e.endsAt), e.title,
          BuildLocation(e.venueName, e.venueAddr), e.url, e.description)
  }

  function SaidAll(now: Instant, events: seq<Event>): seq<Entry> {
    seq(|events|, i requires 0 <= i < |events| => Said(now, events[i]))
  }

  predicate ValidEvent(e: Event) {
    ValidInstant(e.startsAt) && ValidInstant(e.endsAt)
  }

  predicate OneLine(e: Event) {
    !HoldsCRLF(e.uid) && !HoldsCRLF(e.url)
  }

  lemma ParseWrittenLine(p: Property)
    requires ':' !in p.name
    ensures ParseLine(Line(p)) == Some(p)
  {
    var s := Line(p);
    assert s[..|p.name|] == p.name;
    IndexOfSeparator(p.name, ':', p.value);
    assert s[|p.name| + 1..] == p.value;
  }

  /** A line with nothing to break it: no CRLF, and a name without a colon. */
  predicate Plain(p: Property) {
    ':' !in p.name && '\n' !in p.name && !HoldsCRLF(p.value)
  }

  lemma PlainLine(p: Property)
    requires Plain(p)
    ensures !HoldsCRLF(Line(p))
  {
    var s, n := Line(p), |p.name|;
    forall i | 0 <= i < |s| - 1
      ensures !(s[i] == '\r' && s[i + 1] == '\n')
    {
      if i + 1 < n {
        assert s[i + 1] == p.name[i + 1];
      } else if i > n {
        assert s[i] == p.value[i - n - 1] && s[i + 1] == p.value[i - n];
      } else {
        assert s[n] == ':';
      }
    }
  }

  lemma AllPlainCons(ps: seq<Property>)
    requires AllPlain(ps) && ps != []
    ensures Plain(ps[0]) && AllPlain(ps[1..])
  {
    hide Plain;
  }

  lemma ParseLinesCons(line: string, p: Property, lines: seq<string>, ps: seq<Property>)
    requires ParseLine(line) == Some(p) && ParseLines(lines) == Some(ps)
    ensures ParseLines([line] + lines) == Some([p] + ps)
  {
    hide ParseLine;
    assert ([line] + lines)[1..] == lines;
  }

  lemma {:induction false} PlainPropertiesComeBack(ps: seq<Property>)
    requires AllPlain(ps)
    ensures ParseLines(SplitLines(Written(ps))) == Some(ps)
  {
    hide Plain, AllPlain, Line, HoldsCRLF, ParseLine, ParseLines, SplitLines;
    if ps == [] {
      NothingWritten();
    } else {
      AllPlainCons(ps);
      PlainPropertiesComeBack(ps[1..]);
      PlainLine(ps[0]);
      SplitFirstLine(Line(ps[0]), Written(ps[1..]));
      NameOf(ps[0]);
      ParseWrittenLine(ps[0]);
      ParseLinesCons(Line(ps[0]), ps[0], SplitLines(Written(ps[1..])), ps[1..]);
      assert [ps[0]] + ps[1..] == ps;
    }
  }

  lemma NothingWritten()
    ensures ParseLines(SplitLines(Written([]))) == Some([])
  {
  }

  lemma NameOf(p: Property)
    requires Plain(p)
    ensures ':' !in p.name
  {
  }

  /** Reading past one property of an event. */
  lemma ReadOne(p: Property, rest: seq<Property>, e: Entry, noted: Entry)
    requires p.name != "END" && Noted(e, p) == Some(noted)
    ensures ReadEntry([p] + rest, e) == ReadEntry(rest, noted)
  {
    assert ([p] + rest)[1..] == rest;
  }

  lemma ReadOptional(given: bool, p: Property, rest: seq<Property>, e: Entry, noted: Entry)
    requires p.name != "END" && Noted(e, p) == Some(noted) && (!given ==> noted == e)
    ensures ReadEntry(Optional(given, p.name, p.value) + rest, e) == ReadEntry(rest, noted)
  {
    hide Noted;
    if given {
      assert [Property(p.name, p.value)] == [p];
      ReadOne(p, rest, e, noted);
    } else {
      assert [] + rest == rest;
    }
  }

  lemma ReadWrittenTimes(now: Instant, e: Event, rest: seq<Property>, timed: Entry)
    requires ValidInstant(now) && ValidEvent(e)
    requires timed == BLANK.(uid := e.uid, stamp := ToTheSecond(now), startsAt := ToTheSecond(e.startsAt),
                             endsAt := ToTheSecond(e.endsAt))
    ensures ReadEntry(Times(now, e) + rest, BLANK) == ReadEntry(rest, timed)
  {
    hide Unescape, FormatStamp, ParseStamp, ReadEntry, Optional, ValidInstant;
    StampRoundTrip(now);
    StampRoundTrip(e.startsAt);
    StampRoundTrip(e.endsAt);
    var uid, stamp, start := Property("UID", e.uid), Property("DTSTAMP", FormatStamp(now)),
        Property("DTSTART", FormatStamp(e.startsAt));
    var end := Property("DTEND", FormatStamp(e.endsAt));
    var ended := Optional(e.endsAt != ZERO, end.name, end.value);
    var e1 := BLANK.(uid := e.uid);
    var e2 := e1.(stamp := ToTheSecond(now));
    var e3 := e2.(startsAt := ToTheSecond(e.startsAt));
    assert Times(now, e) + rest == [uid] + ([stamp] + ([start] + (ended + rest)));
    ReadOne(uid, [stamp] + ([start] + (ended + rest)), BLANK, e1);
    ReadOne(stamp, [start] + (ended + rest), e1, e2);
    ReadOne(start, ended + rest, e2, e3);
    ReadOptional(e.endsAt != ZERO, end, rest, e3, timed);
  }

  lemma ReadWrittenTexts(e: Event, rest: seq<Property>, timed: Entry, full: Entry)
    requires timed.title == timed.location == timed.url == timed.description == ""
    requires full == timed.(title := e.title, location := BuildLocation(e.venueName, e.venueAddr), url := e.url,
                            description := e.description)
    ensures ReadEntry(Texts(e) + rest, timed) == ReadEntry(rest, full)
  {
    hide Escape, Unescape, ParseStamp, ReadEntry, Optional, BuildLocation;
    var location := BuildLocation(e.venueName, e.venueAddr);
    EscapeRoundTrip(e.title);
    EscapeRoundTrip(location);
    EscapeRoundTrip(e.description);
    var summary, place := Property("SUMMARY", Escape(e.title)), Property("LOCATION", Escape(location));
    var url, description := Property("URL", e.url), Property("DESCRIPTION", Escape(e.description));
    var described := Optional(e.description != "", description.name, description.value);
    var linked := Optional(e.url != "", url.name, url.value);
    var placed := Optional(location != "", place.name, place.value);
    var titled := Optional(e.title != "", summary.name, summary.value);
    var e1 := timed.(title := e.title);
    var e2 := e1.(location := location);
    var e3 := e2.(url := e.url);
    assert Texts(e) + rest == titled + (placed + (linked + (described + rest)));
    ReadOptional(e.title != "", summary, placed + (linked + (described + rest)), timed, e1);
    ReadOptional(location != "", place, linked + (described + rest), e1, e2);
    ReadOptional(e.url != "", url, described + rest, e2, e3);
    ReadOptional(e.description != "", description, rest, e3, full);
  }

  lemma ReadWrittenEvent(now: Instant, e: Event, rest: seq<Property>)
    requires ValidInstant(now) && ValidEvent(e)
    ensures ReadEntry(Fields(now, e) + [CLOSE] + rest, BLANK) == Some((Said(now, e), rest))
  {
    hide Times, Texts, ReadEntry, BuildLocation, ValidInstant, ValidEvent;
    var timed := BLANK.(uid := e.uid, stamp := ToTheSecond(now), startsAt := ToTheSecond(e.startsAt),
                        endsAt := ToTheSecond(e.endsAt));
    assert Fields(now, e) + [CLOSE] + rest == Times(now, e) + (Texts(e) + ([CLOSE] + rest));
    ReadWrittenTimes(now, e, Texts(e) + ([CLOSE] + rest), timed);
    ReadWrittenTexts(e, [CLOSE] + rest, timed, Said(now, e));
    ReadClose(rest, Said(now, e));
  }

  lemma ReadClose(rest: seq<Property>, e: Entry)
    ensures ReadEntry([CLOSE] + rest, e) == Some((e, rest))
  {
    assert ([CLOSE] + rest)[1..] == rest;
  }

  lemma {:induction false} ReadWrittenEvents(now: Instant, events: seq<Event>)
    requires ValidInstant(now) && forall e :: e in events ==> ValidEvent(e)
    ensures ReadEntries(EventProperties(now, events) + [LAST]) == Some(SaidAll(now, events))
    decreases |events|
  {
    hide Fields, ReadEntry, Said, ValidEvent, ValidInstant;
    if events == [] {
      assert EventProperties(now, events) + [LAST] == [LAST];
      assert SaidAll(now, events) == [];
    } else {
      var rest := EventProperties(now, events[1..]) + [LAST];
      var ps := EventProperties(now, events) + [LAST];
      assert ps[1..] == Fields(now, events[0]) + [CLOSE] + rest;
      assert |ps| > 1 && ps[0] == OPEN;
      ReadWrittenEvent(now, events[0], rest);
      ReadWrittenEvents(now, events[1..]);
      assert SaidAll(now, events) == [Said(now, events[0])] + SaidAll(now, events[1..]);
    }
  }

  lemma NoLFNoCRLF(s: string)
    requires '\n' !in s
    ensures !HoldsCRLF(s)
  {
  }

  ghost predicate AllPlain(ps: seq<Property>) {
    forall p :: p in ps ==> Plain(p)
  }

  lemma AllPlainConcat(a: seq<Property>, b: seq<Property>)
    requires AllPlain(a) && AllPlain(b)
    ensures AllPlain(a + b)
  {
    hide Plain;
  }

  lemma NoLFIsPlain(name: string, value: string)
    requires ':' !in name && '\n' !in name && '\n' !in value
    ensures AllPlain([Property(name, value)]) && AllPlain(Optional(true, name, value))
            && AllPlain(Optional(false, name, value))
  {
    NoLFNoCRLF(value);
  }

  lemma FieldsArePlain(now: Instant, e: Event)
    requires OneLine(e)
    ensures AllPlain(Fields(now, e))
  {
    hide AllPlain, Escape, FormatStamp, HoldsCRLF, BuildLocation, Optional;
    var location := BuildLocation(e.venueName, e.venueAddr);
    EscapeRoundTrip(e.title);
    EscapeRoundTrip(location);
    EscapeRoundTrip(e.description);
    StampHasNoLF(now);
    StampHasNoLF(e.startsAt);
    StampHasNoLF(e.endsAt);
    var start := [Property("UID", e.uid), Property("DTSTAMP", FormatStamp(now)),
                  Property("DTSTART", FormatStamp(e.startsAt))];
    var end := Optional(e.endsAt != ZERO, "DTEND", FormatStamp(e.endsAt));
    var title := Optional(e.title != "", "SUMMARY", Escape(e.title));
    var place := Optional(location != "", "LOCATION", Escape(location));
    var url := Optional(e.url != "", "URL", e.url);
    var description := Optional(e.description != "", "DESCRIPTION", Escape(e.description));
    NoLFIsPlain("DTSTAMP", FormatStamp(now));
    NoLFIsPlain("DTSTART", FormatStamp(e.startsAt));
    NoLFIsPlain("DTEND", FormatStamp(e.endsAt));
    NoLFIsPlain("SUMMARY", Escape(e.title));
    NoLFIsPlain("LOCATION", Escape(location));
    NoLFIsPlain("DESCRIPTION", Escape(e.description));
    UnescapedIsPlain("UID", e.uid);
    UnescapedIsPlain("URL", e.url);
    AllPlainConcat([Property("UID", e.uid)], [Property("DTSTAMP", FormatStamp(now))]);
    AllPlainConcat([Property("UID", e.uid)] + [Property("DTSTAMP", FormatStamp(now))],
                   [Property("DTSTART", FormatStamp(e.startsAt))]);
    assert start == [Property("UID", e.uid)] + [Property("DTSTAMP", FormatStamp(now))]
                    + [Property("DTSTART", FormatStamp(e.startsAt))];
    AllPlainConcat(start, end);
    AllPlainConcat(title, place);
    AllPlainConcat(title + place, url);
    AllPlainConcat(title + place + url, description);
    AllPlainConcat(start + end, title + place + url + description);
  }

  lemma UnescapedIsPlain(name: string, value: string)
    requires ':' !in name && '\n' !in name && !HoldsCRLF(value)
    ensures AllPlain([Property(name, value)]) && AllPlain(Optional(true, name, value))
            && AllPlain(Optional(false, name, value))
  {
    hide HoldsCRLF;
  }

  lemma {:induction false} EventsArePlain(now: Instant, events: seq<Event>)
    requires forall e :: e in events ==> OneLine(e)
    ensures AllPlain(EventProperties(now, events))
  {
    hide Fields, OneLine, Plain;
    if events == [] {
    } else {
      FieldsArePlain(now, events[0]);
      EventsArePlain(now, events[1..]);
      EndsArePlain();
    }
  }

  lemma EndsArePlain()
    ensures Plain(OPEN) && Plain(CLOSE) && Plain(LAST)
  {
  }

  lemma HeaderIsPlain(calName: string)
    ensures AllPlain(Header(calName))
  {
    hide Escape, AllPlain;
    EscapeRoundTrip(calName);
    var name := Escape(calName);
    var fixed := [Property("BEGIN", "VCALENDAR"), Property("VERSION", "2.0"),
                  Property("PRODID", "-//Here's What's Happening//Calendar//EN"),
      Property("METHOD", "PUBLISH"), Property("X-PUBLISHED-TTL", "PT1H")];
    FixedHeaderIsPlain();
    NoLFIsPlain("NAME", name);
    NoLFIsPlain("X-WR-CALNAME", name);
    AllPlainConcat(fixed, [Property("NAME", name)]);
    AllPlainConcat(fixed + [Property("NAME", name)], [Property("X-WR-CALNAME", name)]);
    assert Header(calName) == fixed + [Property("NAME", name)] + [Property("X-WR-CALNAME", name)];
  }

  lemma FixedHeaderIsPlain()
    ensures AllPlain([Property("BEGIN", "VCALENDAR"), Property("VERSION", "2.0"),
                      Property("PRODID", "-//Here's What's Happening//Calendar//EN"),
      Property("METHOD", "PUBLISH"), Property("X-PUBLISHED-TTL", "PT1H")])
  {
    ShortHeadersArePlain();
    ProductIsPlain();
    FiveArePlain(Property("BEGIN", "VCALENDAR"), Property("VERSION", "2.0"),
                 Property("PRODID", "-//Here's What's Happening//Calendar//EN"),
      Property("METHOD", "PUBLISH"), Property("X-PUBLISHED-TTL", "PT1H"));
  }

  lemma FiveArePlain(a: Property, b: Property, c: Property, d: Property, e: Property)
    requires Plain(a) && Plain(b) && Plain(c) && Plain(d) && Plain(e)
    ensures AllPlain([a, b, c, d, e])
  {
    hide Plain;
  }

  lemma ProductIsPlain()
    ensures Plain(Property("PRODID", "-//Here's What's Happening//Calendar//EN"))
  {
    NoLFNoCRLF("-//Here's What's Happening//Calendar//EN");
  }

  lemma ShortHeadersArePlain()
    ensures Plain(Property("BEGIN", "VCALENDAR")) && Plain(Property("VERSION", "2.0"))
    ensures Plain(Property("METHOD", "PUBLISH")) && Plain(Property("X-PUBLISHED-TTL", "PT1H"))
  {
    hide HoldsCRLF;
    NoLFNoCRLF("VCALENDAR");
    NoLFNoCRLF("2.0");
    NoLFNoCRLF("PUBLISH");
    NoLFNoCRLF("PT1H");
  }

  /** Subscribers get back what the events say. */
  lemma CalendarComesBack(calName: string, now: Instant, events: seq<Event>)
    requires ValidInstant(now) && forall e :: e in events ==> ValidEvent(e)
    requires forall e :: e in events ==> OneLine(e)
    ensures ParseCalendar(Written(Calendar(calName, now, events))) == Some(Feed(calName, SaidAll(now, events)))
  {
    hide Escape, Unescape, Plain, EventProperties, ReadEntries, ValidEvent, OneLine, ValidInstant, Written,
        SplitLines, ParseLines, Header, ReadHeader;
    var ps := Calendar(calName, now, events);
    HeaderComesBack(calName, EventProperties(now, events) + [LAST]);
    assert ps == Header(calName) + (EventProperties(now, events) + [LAST]);
    HeaderIsPlain(calName);
    EventsArePlain(now, events);
    EndsArePlain();
    PlainPropertiesComeBack(ps);
    ReadWrittenEvents(now, events);
    assert ps[7..] == EventProperties(now, events) + [LAST];
  }

  // Nothing the reader returns holds a CRLF, so a UID or URL with one is lost.

  predicate Unbroken(e: Entry) {
    !HoldsCRLF(e.uid) && !HoldsCRLF(e.url)
  }

  lemma ParsedValueHoldsNoCRLF(s: string)
    requires !HoldsCRLF(s) && ParseLine(s).Some?
    ensures !HoldsCRLF(ParseLine(s).value.value)
  {
    TailHoldsNoCRLF(s, IndexOf(s, ':').value + 1);
  }

  lemma {:induction false} ReadEntryIsUnbroken(ps: seq<Property>, e: Entry)
    requires Unbroken(e) && (forall p :: p in ps ==> !HoldsCRLF(p.value)) && ReadEntry(ps, e).Some?
    ensures Unbroken(ReadEntry(ps, e).value.0)
    ensures forall p :: p in ReadEntry(ps, e).value.1 ==> p in ps
    decreases |ps|
  {
    hide HoldsCRLF, Unescape, ParseStamp;
    if ps[0] == CLOSE {
    } else {
      assert ps[0] in ps;
      ReadEntryIsUnbroken(ps[1..], Noted(e, ps[0]).value);
    }
  }

  lemma BlankIsUnbroken()
    ensures Unbroken(BLANK)
  {
  }

  lemma {:induction false} ReadEntriesAreUnbroken(ps: seq<Property>)
    requires (forall p :: p in ps ==> !HoldsCRLF(p.value)) && ReadEntries(ps).Some?
    ensures forall e :: e in ReadEntries(ps).value ==> Unbroken(e)
    decreases |ps|
  {
    hide Unbroken, HoldsCRLF, ReadEntry;
    if ps == [LAST] {
    } else {
      BlankIsUnbroken();
      ReadEntryIsUnbroken(ps[1..], BLANK);
      ReadEntriesAreUnbroken(ReadEntry(ps[1..], BLANK).value.1);
    }
  }

  lemma ParsedEntriesAreUnbroken(text: string)
    requires ParseCalendar(text).Some?
    ensures forall e :: e in ParseCalendar(text).value.entries ==> Unbroken(e)
  {
    hide Unbroken, HoldsCRLF, ReadEntries, SplitLines, ParseLine, Unescape;
    SplitLinesHoldNoCRLF(text);
    var lines := SplitLines(text);
    var ps := ParseLines(lines).value;
    forall p | p in ps
      ensures !HoldsCRLF(p.value)
    {
      var i :| 0 <= i < |ps| && ps[i] == p;
      ParsedValueHoldsNoCRLF(lines[i]);
    }
    ReadEntriesAreUnbroken(ps[7..]);
  }

  /** The feed comes back exactly when no UID and no URL holds a CRLF: those two
      are written unescaped, everything else survives whatever it holds. */
  lemma CalendarComesBackIff(calName: string, now: Instant, events: seq<Event>)
    requires ValidInstant(now) && forall e :: e in events ==> ValidEvent(e)
    ensures ParseCalendar(Written(Calendar(calName, now, events))) == Some(Feed(calName, SaidAll(now, events)))
       <==> forall e :: e in events ==> OneLine(e)
  {
    hide Calendar, Written, ParseCalendar, HoldsCRLF, BuildLocation, ValidEvent, ValidInstant;
    var text := Written(Calendar(calName, now, events));
    if forall e :: e in events ==> OneLine(e) {
      CalendarComesBack(calName, now, events);
    }
    if ParseCalendar(text) == Some(Feed(calName, SaidAll(now, events))) {
      ParsedEntriesAreUnbroken(text);
      forall e | e in events
        ensures OneLine(e)
      {
        var i :| 0 <= i < |events| && events[i] == e;
        assert Said(now, e) == SaidAll(now, events)[i];
        assert Unbroken(Said(now, e));
      }
    }
  }
}
