/**
 The history panel's helpers: the date label a record is grouped under, the
 12-hour time label, the one-line summary of a record, the grouping of the
 records by date label, and the hover preview that temporarily replaces the
 main chat with a single record.
 */
module History {
  import opened Types
  import opened Text
  import Playground

  const DayNames: seq<string> := ["Sunday", "Monday", "Tuesday", "Wednesday", "Thursday", "Friday", "Saturday"]
  const MonthNames: seq<string> := ["Jan", "Feb", "Mar", "Apr", "May", "Jun", "Jul", "Aug", "Sep", "Oct", "Nov", "Dec"]

  const UpperDayNames: seq<string> := ["SUNDAY", "MONDAY", "TUESDAY", "WEDNESDAY", "THURSDAY", "FRIDAY", "SATURDAY"]
  const UpperMonthNames: seq<string> := ["JAN", "FEB", "MAR", "APR", "MAY", "JUN", "JUL", "AUG", "SEP", "OCT", "NOV", "DEC"]

  /** The weekday label: the upper-cased name from the `getDay()` table, capital letters only. */
  function GetWeekday(d: DateTime): (r: string)
    ensures r == UpperDayNames[d.weekday]
    ensures forall i :: 0 <= i < |r| ==> 'A' <= r[i] <= 'Z'
  {
    ToUpper(DayNames[d.weekday])
  }

  /** The month label: the upper-cased three-letter name from the `getMonth()` table. */
  function FormatMonth(d: DateTime): (r: string)
    ensures r == UpperMonthNames[d.month] && |r| == 3
  {
    ToUpper(MonthNames[d.month])
  }

  /**
   The label a record is grouped under: weekday, month, zero-padded day of
   the month and year, as in "MONDAY, JAN 05, 2025". It opens with the
   weekday label and its comma and closes with the year.
   */
  function DateKey(d: DateTime): (r: string)
    ensures StartsWith(r, GetWeekday(d) + ",")
    ensures |Decimal(d.year)| <= |r| && r[|r| - |Decimal(d.year)|..] == Decimal(d.year)
  {
    GetWeekday(d) + ", " + FormatMonth(d) + " " + Pad2(d.day) + ", " + Decimal(d.year)
  }

  predicate SameDate(d1: DateTime, d2: DateTime) {
    d1.year == d2.year && d1.month == d2.month && d1.day == d2.day && d1.weekday == d2.weekday
  }

  /** Cutting at the first occurrence of a separator that the heads do not contain. */
  lemma SplitAtSeparator(a: string, x: string, b: string, y: string, sep: char)
    requires sep !in a && sep !in b
    requires a + [sep] + x == b + [sep] + y
    ensures a == b && x == y
  {
    var s := a + [sep] + x;
    assert s[|a|] == sep && s[|b|] == sep;
    assert a == s[..|a|];
    assert x == s[|a| + 1..];
  }

  /** `String(n)` is injective. */
  lemma DecimalInjective(m: nat, n: nat)
    requires Decimal(m) == Decimal(n)
    ensures m == n
  {
    DecimalRoundTrip(m);
    DecimalRoundTrip(n);
  }

  /** The text after the weekday and its comma. */
  function AfterWeekday(d: DateTime): string {
    " " + FormatMonth(d) + " " + Pad2(d.day) + ", " + Decimal(d.year)
  }

  lemma DateKeySplit(d: DateTime)
    ensures DateKey(d) == GetWeekday(d) + [','] + AfterWeekday(d)
    ensures ',' !in GetWeekday(d)
  {
  }

  /** The month, day and year can be read back from their positions in the tail of the label. */
  lemma AfterWeekdayFields(d: DateTime)
    ensures var r := AfterWeekday(d);
      && |r| >= 9 && r[1..4] == FormatMonth(d) && r[5..7] == Pad2(d.day) && r[9..] == Decimal(d.year)
  {
  }

  /** Two records share a date label exactly when they fall on the same calendar day. */
  lemma DateKeyInjective(d1: DateTime, d2: DateTime)
    ensures DateKey(d1) == DateKey(d2) <==> SameDate(d1, d2)
  {
    if DateKey(d1) == DateKey(d2) {
      DateKeySplit(d1);
      DateKeySplit(d2);
      SplitAtSeparator(GetWeekday(d1), AfterWeekday(d1), GetWeekday(d2), AfterWeekday(d2), ',');
      AfterWeekdayFields(d1);
      AfterWeekdayFields(d2);
      assert Pad2(d1.day) == Pad2(d2.day);
      DecimalInjective(d1.year, d2.year);
    }
  }

  /** The records of `records` whose label is `key`, in input order; each carries that label. */
  function WithKey(records: seq<HistoryItem>, key: string): (r: seq<HistoryItem>)
    ensures |r| <= |records|
    ensures forall i :: 0 <= i < |r| ==> DateKey(r[i].timestamp) == key
  {
    if records == [] then []
    else
      var last := records[|records| - 1];
      WithKey(records[..|records| - 1], key) + (if DateKey(last.timestamp) == key then [last] else [])
  }

  lemma WithKeyStep(records: seq<HistoryItem>, i: nat, key: string)
    requires i < |records|
    ensures WithKey(records[..i + 1], key)
      == WithKey(records[..i], key) + (if DateKey(records[i].timestamp) == key then [records[i]] else [])
  {
    assert records[..i + 1][..i] == records[..i];
  }

  /** A group holds exactly the records whose label is its key. */
  lemma {:induction false} WithKeyMembers(records: seq<HistoryItem>, key: string)
    ensures forall r :: r in WithKey(records, key) <==> r in records && DateKey(r.timestamp) == key
  {
    if records != [] {
      var init := records[..|records| - 1];
      WithKeyMembers(init, key);
      assert records == init + [records[|records| - 1]];
    }
  }

  /** Grouping works piecewise: the records of an earlier stretch precede those of a later one. */
  lemma {:induction false} WithKeyAppend(a: seq<HistoryItem>, b: seq<HistoryItem>, key: string)
    ensures WithKey(a + b, key) == WithKey(a, key) + WithKey(b, key)
    decreases |b|
  {
    if b == [] {
      assert a + b == a;
    } else {
      assert (a + b)[..|a + b| - 1] == a + b[..|b| - 1];
      WithKeyAppend(a, b[..|b| - 1], key);
    }
  }

  /** Every record lies in the group of its own label and in no other group. */
  lemma ExactlyOneGroup(records: seq<HistoryItem>, i: nat, key: string)
    requires i < |records|
    ensures records[i] in WithKey(records, key) <==> key == DateKey(records[i].timestamp)
  {
    WithKeyMembers(records, key);
  }

  /** `groups` has one entry per label occurring in `records`, holding that label's records in order. */
  ghost predicate Grouped(groups: map<string, seq<HistoryItem>>, records: seq<HistoryItem>) {
    && (forall key :: key in groups <==> WithKey(records, key) != [])
    && (forall key :: key in groups ==> groups[key] == WithKey(records, key))
  }

  /** Pushing the next record onto its label's group keeps the grouping exact. */
  lemma GroupedStep(groups: map<string, seq<HistoryItem>>, records: seq<HistoryItem>, i: nat)
    requires i < |records| && Grouped(groups, records[..i])
    ensures var key := DateKey(records[i].timestamp);
      Grouped(groups[key := (if key in groups then groups[key] else []) + [records[i]]], records[..i + 1])
  {
    var k := DateKey(records[i].timestamp);
    var g := groups[k := (if k in groups then groups[k] else []) + [records[i]]];
    forall key
      ensures key in g <==> WithKey(records[..i + 1], key) != []
      ensures key in g ==> g[key] == WithKey(records[..i + 1], key)
    {
      WithKeyStep(records, i, key);
    }
  }

  /**
   `groupHistoryByDate`: one group per label that occurs, holding the
   records with that label in input order.
   */
  method GroupHistoryByDate(records: seq<HistoryItem>) returns (groups: map<string, seq<HistoryItem>>)
    ensures forall key :: key in groups <==> WithKey(records, key) != []
    ensures forall key :: key in groups ==> groups[key] == WithKey(records, key)
  {
    groups := map[];
    var i := 0;
    while i < |records|
      invariant 0 <= i <= |records|
      invariant Grouped(groups, records[..i])
    {
      var r := records[i];
      var dateKey := DateKey(r.timestamp);
      GroupedStep(groups, records, i);
      // a label seen for the first time starts an empty group, which the record is pushed onto
      var group := if dateKey in groups then groups[dateKey] else [];
      groups := groups[dateKey := group + [r]];
      i := i + 1;
    }
    assert records[..i] == records;
  }

  /** The hour a 12-hour clock shows: 12 for midnight and noon, otherwise the hour modulo 12. */
  function ClockHour(h: Hour): (r: nat)
    ensures 1 <= r <= 12
    ensures h < 12 ==> (h == 0 ==> r == 12) && (h != 0 ==> r == h)
    ensures h >= 12 ==> (h == 12 ==> r == 12) && (h != 12 ==> r == h - 12)
  {
    if h % 12 == 0 then 12 else h % 12
  }

  /** The time a record shows: hour on a 12-hour clock, minutes padded to two digits, then AM or PM. */
  function TimeText(hours: Hour, minutes: Minute): (r: string)
    ensures hours == 0 ==> r == "12:" + Pad2(minutes) + " AM"
    ensures 1 <= hours < 12 ==> r == Decimal(hours) + ":" + Pad2(minutes) + " AM"
    ensures hours == 12 ==> r == "12:" + Pad2(minutes) + " PM"
    ensures 12 < hours ==> r == Decimal(hours - 12) + ":" + Pad2(minutes) + " PM"
  {
    Decimal(ClockHour(hours)) + ":" + Pad2(minutes) + (if hours >= 12 then " PM" else " AM")
  }

  /** The shown time determines the hour and the minute: no two times of day look alike. */
  lemma TimeTextInjective(h1: Hour, m1: Minute, h2: Hour, m2: Minute)
    requires TimeText(h1, m1) == TimeText(h2, m2)
    ensures h1 == h2 && m1 == m2
  {
    var s := TimeText(h1, m1);
    var n := |s|;
    var d1, d2 := Decimal(ClockHour(h1)), Decimal(ClockHour(h2));
    var x1: string := if h1 >= 12 then " PM" else " AM";
    var x2: string := if h2 >= 12 then " PM" else " AM";
    assert s == d1 + ":" + Pad2(m1) + x1;
    assert s == d2 + ":" + Pad2(m2) + x2;
    assert |d1| == n - 6 == |d2|;
    assert s[n - 3..] == x1 && s[n - 3..] == x2;
    assert x1[1] == x2[1];
    assert s[n - 5..n - 3] == Pad2(m1) && s[n - 5..n - 3] == Pad2(m2);
    assert s[..n - 6] == d1 && s[..n - 6] == d2;
    DecimalInjective(ClockHour(h1), ClockHour(h2));
  }

  /** `formatTime`, step by step as the page computes it. */
  method FormatTime(d: DateTime) returns (s: string)
    ensures s == TimeText(d.hours, d.minutes)
  {
    var hr: int := d.hours;
    var ampm := if hr >= 12 then "PM" else "AM";
    hr := hr % 12;
    if hr == 0 {
      hr := 12;
    }
    var min := Pad2(d.minutes);
    s := Decimal(hr) + ":" + min + " " + ampm;
  }

  function RolePrefix(role: Role): string {
    if role == Assistant then "Assistant: " else "User: "
  }

  /**
   `renderShortContent`: the role prefix, then the content, "<empty>" for
   empty content, or, when the content is longer than 60 UTF-16 code units,
   its longest prefix of whole characters within 60 units and "...". The
   part after the prefix is at most 63 units long, and a cut keeps at least
   59 of them.
   */
  method RenderShortContent(item: HistoryItem) returns (s: string)
    ensures StartsWith(s, RolePrefix(item.role))
    ensures var body := s[|RolePrefix(item.role)|..];
      && (item.content == "" ==> body == "<empty>")
      && (item.content != "" && Utf16Length(item.content) <= 60 ==> body == item.content)
      && (Utf16Length(item.content) > 60 ==>
            body == Utf16Prefix(item.content, 60) + "..." && 62 <= Utf16Length(body))
      && Utf16Length(body) <= 63
  {
    var prefix := if item.role == Assistant then "Assistant: " else "User: ";
    var txt := if item.content != "" then item.content else "<empty>";
    if Utf16Length(txt) > 60 {
      var cut := Utf16Prefix(txt, 60);
      Utf16LengthAppend(cut, "...");
      txt := cut + "...";
    }
    s := prefix + txt;
    assert s[|prefix|..] == txt;
  }

  /**
   The hover preview. Entering a row saves the current main chat and shows
   only that row's message; leaving restores what was saved and forgets it.
   */
  class HoverPreview {
    var snapshot: Option<seq<Message>>

    constructor ()
      ensures snapshot == None
    {
      snapshot := None;
    }

    /** The message shown while a row is hovered; `clock` is the id clock reading. */
    static function Preview(item: HistoryItem, clock: int): (m: Message)
      ensures m.role == item.role && m.content == item.content && m.originalContent == Some(item.content)
      ensures !m.isDisliked && !m.isJson
    {
      Turn(clock as real, item.role, item.content)
    }

    method MouseEnter(item: HistoryItem, page: Playground.Page, clock: int)
      modifies this`snapshot, page`chatMessages
      ensures snapshot == Some(old(page.chatMessages))
      ensures page.chatMessages == [Preview(item, clock)]
    {
      snapshot := Some(page.chatMessages);
      page.chatMessages := [Preview(item, clock)];
    }

    method MouseLeave(page: Playground.Page)
      modifies this`snapshot, page`chatMessages
      ensures old(snapshot).Some? ==> page.chatMessages == old(snapshot).value && snapshot == None
      ensures old(snapshot).None? ==> page.chatMessages == old(page.chatMessages) && snapshot == None
    {
      if snapshot.Some? {
        page.chatMessages := snapshot.value;
        snapshot := None;
      }
    }

    /** Hovering a row and leaving it puts the main chat back exactly as it was. */
    method HoverAndLeave(item: HistoryItem, page: Playground.Page, clock: int)
      modifies this`snapshot, page`chatMessages
      ensures page.chatMessages == old(page.chatMessages) && snapshot == None
    {
      MouseEnter(item, page, clock);
      MouseLeave(page);
    }
  }
}
