/** Timestamps: how `_iso` prints them, how `_iso_in_past` reads them back, and why the SQL
    sweep may compare them as text. */
module IsoTime {
  import opened Prelude

  /** A UTC instant. */
  datatype DateTime = DateTime(year: nat, month: nat, day: nat, hour: nat, minute: nat, second: nat, micro: nat)

  predicate Leap(y: nat) {
    y % 4 == 0 && (y % 100 != 0 || y % 400 == 0)
  }

  function DaysIn(y: nat, m: nat): nat {
    if m == 2 then (if Leap(y) then 29 else 28)
    else if m == 4 || m == 6 || m == 9 || m == 11 then 30
    else 31
  }

  /** A real calendar date with a four-digit year. */
  predicate Valid(d: DateTime) {
    && 1000 <= d.year <= 9999
    && 1 <= d.month <= 12
    && 1 <= d.day <= DaysIn(d.year, d.month)
    && d.hour < 24 && d.minute < 60 && d.second < 60 && d.micro < 1_000_000
  }

  type Instant = d: DateTime | Valid(d) witness DateTime(2026, 1, 1, 0, 0, 0, 0)

  /** Chronological order. */
  predicate NotAfter(a: DateTime, b: DateTime) {
    if a.year != b.year then a.year < b.year
    else if a.month != b.month then a.month < b.month
    else if a.day != b.day then a.day < b.day
    else if a.hour != b.hour then a.hour < b.hour
    else if a.minute != b.minute then a.minute < b.minute
    else if a.second != b.second then a.second < b.second
    else a.micro <= b.micro
  }

  function WholeSecond(d: Instant): Instant {
    d.(micro := 0)
  }

  // ---------------------------------------------------------------- printing

  function Digit(n: nat): char
    requires n < 10
  {
    ('0' as int + n) as char
  }

  function Two(n: nat): string
    requires n < 100
  {
    [Digit(n / 10), Digit(n % 10)]
  }

  /** `strftime("%Y-%m-%dT%H:%M:%SZ")`. */
  function Iso(d: Instant): string {
    Two(d.year / 100) + (Two(d.year % 100) + (['-'] + (Two(d.month) + (['-'] + (Two(d.day)
      + (['T'] + (Two(d.hour) + ([':'] + (Two(d.minute) + ([':'] + (Two(d.second) + ['Z'])))))))))))
  }

  // ---------------------------------------------------------------- parsing

  predicate IsDigit(c: char) {
    '0' <= c <= '9'
  }

  function Value(s: string, i: nat): nat
    requires i + 1 < |s| && IsDigit(s[i]) && IsDigit(s[i + 1])
  {
    (s[i] as int - '0' as int) * 10 + (s[i + 1] as int - '0' as int)
  }

  function WithoutZ(s: string): string {
    if s == [] then [] else (if s[0] == 'Z' then [] else [s[0]]) + WithoutZ(s[1..])
  }

  predicate DigitsAt(s: string, i: nat) {
    i + 1 < |s| && IsDigit(s[i]) && IsDigit(s[i + 1])
  }

  /** `strptime` on the fixed nineteen-character form. */
  function Parse(s: string): Option<DateTime> {
    if |s| == 19 && s[4] == '-' && s[7] == '-' && s[10] == 'T' && s[13] == ':' && s[16] == ':'
       && DigitsAt(s, 0) && DigitsAt(s, 2) && DigitsAt(s, 5) && DigitsAt(s, 8)
       && DigitsAt(s, 11) && DigitsAt(s, 14) && DigitsAt(s, 17)
    then
      var d := DateTime(Value(s, 0) * 100 + Value(s, 2), Value(s, 5), Value(s, 8),
                        Value(s, 11), Value(s, 14), Value(s, 17), 0);
      if Valid(d) then Some(d) else None
    else None
  }

  /** An unreadable timestamp counts as past. */
  predicate InPast(s: string, now: Instant) {
    match Parse(WithoutZ(s))
    case None => true
    case Some(t) => NotAfter(t, now)
  }

  // ---------------------------------------------------------------- text order

  /** `<=` on TEXT values. */
  predicate TextLeq(s: string, t: string) {
    s == [] || (t != [] && (s[0] < t[0] || (s[0] == t[0] && TextLeq(s[1..], t[1..]))))
  }

  lemma SameHead(c: char, s: string, t: string)
    ensures TextLeq([c] + s, [c] + t) <==> TextLeq(s, t)
  {
    assert ([c] + s)[1..] == s && ([c] + t)[1..] == t;
  }

  /** Two-digit fields compare as the numbers they print. */
  lemma FieldOrder(a: nat, b: nat, s: string, t: string)
    requires a < 100 && b < 100
    ensures TextLeq(Two(a) + s, Two(b) + t) <==> a < b || (a == b && TextLeq(s, t))
  {
    var x, y := Two(a) + s, Two(b) + t;
    assert x[1..] == [Digit(a % 10)] + s && y[1..] == [Digit(b % 10)] + t;
    assert x[1..][1..] == s && y[1..][1..] == t;
  }

  /** Printing preserves order, up to the fraction of a second it drops. */
  lemma IsoOrder(a: Instant, b: Instant)
    ensures TextLeq(Iso(a), Iso(b)) <==> NotAfter(WholeSecond(a), WholeSecond(b))
  {
    var as6, bs6 := Two(a.second) + ['Z'], Two(b.second) + ['Z'];
    var as5, bs5 := Two(a.minute) + ([':'] + as6), Two(b.minute) + ([':'] + bs6);
    var as4, bs4 := Two(a.hour) + ([':'] + as5), Two(b.hour) + ([':'] + bs5);
    var as3, bs3 := Two(a.day) + (['T'] + as4), Two(b.day) + (['T'] + bs4);
    var as2, bs2 := Two(a.month) + (['-'] + as3), Two(b.month) + (['-'] + bs3);
    var as1, bs1 := Two(a.year % 100) + (['-'] + as2), Two(b.year % 100) + (['-'] + bs2);
    FieldOrder(a.second, b.second, ['Z'], ['Z']);
    SameHead(':', as6, bs6);
    FieldOrder(a.minute, b.minute, [':'] + as6, [':'] + bs6);
    SameHead(':', as5, bs5);
    FieldOrder(a.hour, b.hour, [':'] + as5, [':'] + bs5);
    SameHead('T', as4, bs4);
    FieldOrder(a.day, b.day, ['T'] + as4, ['T'] + bs4);
    SameHead('-', as3, bs3);
    FieldOrder(a.month, b.month, ['-'] + as3, ['-'] + bs3);
    SameHead('-', as2, bs2);
    FieldOrder(a.year % 100, b.year % 100, ['-'] + as2, ['-'] + bs2);
    FieldOrder(a.year / 100, b.year / 100, as1, bs1);
  }

  lemma {:induction false} WithoutZKeeps(s: string)
    requires forall k :: 0 <= k < |s| ==> s[k] != 'Z'
    ensures WithoutZ(s + ['Z']) == s
  {
    if s == [] {
      assert ([] + ['Z'])[1..] == [];
    } else {
      assert (s + ['Z'])[1..] == s[1..] + ['Z'];
      WithoutZKeeps(s[1..]);
    }
  }

  lemma DigitsRead(n: nat)
    requires n < 100
    ensures IsDigit(Digit(n / 10)) && IsDigit(Digit(n % 10))
    ensures (Digit(n / 10) as int - '0' as int) * 10 + (Digit(n % 10) as int - '0' as int) == n
  {
  }

  function Stem(d: Instant): string {
    [Digit(d.year / 100 / 10), Digit(d.year / 100 % 10), Digit(d.year % 100 / 10), Digit(d.year % 100 % 10), '-',
     Digit(d.month / 10), Digit(d.month % 10), '-', Digit(d.day / 10), Digit(d.day % 10), 'T',
     Digit(d.hour / 10), Digit(d.hour % 10), ':', Digit(d.minute / 10), Digit(d.minute % 10), ':',
     Digit(d.second / 10), Digit(d.second % 10)]
  }

  lemma IsoIsStem(d: Instant)
    ensures Iso(d) == Stem(d) + ['Z']
  {
  }

  lemma StemParses(d: Instant)
    ensures Parse(Stem(d)) == Some(WholeSecond(d))
    ensures forall k :: 0 <= k < |Stem(d)| ==> Stem(d)[k] != 'Z'
  {
    DigitsRead(d.year / 100);
    DigitsRead(d.year % 100);
    DigitsRead(d.month);
    DigitsRead(d.day);
    DigitsRead(d.hour);
    DigitsRead(d.minute);
    DigitsRead(d.second);
  }

  /** Reading a printed timestamp gives the instant cut to whole seconds. */
  lemma ParseIso(d: Instant)
    ensures Parse(WithoutZ(Iso(d))) == Some(WholeSecond(d))
  {
    IsoIsStem(d);
    StemParses(d);
    WithoutZKeeps(Stem(d));
  }

  /** The sweep's text test and the parsed test pick the same proposals. */
  lemma TextTestIsTimeTest(expires: Instant, now: Instant)
    ensures TextLeq(Iso(expires), Iso(now)) <==> InPast(Iso(expires), now)
  {
    IsoOrder(expires, now);
    ParseIso(expires);
  }

  /** A proposal that still reads as live is strictly before its exact expiry instant; one
      that reads as past is at or after that instant cut to whole seconds. */
  lemma NeverLate(expires: Instant, now: Instant)
    ensures NotAfter(expires, now) ==> InPast(Iso(expires), now)
    ensures InPast(Iso(expires), now) <==> NotAfter(WholeSecond(expires), now)
  {
    ParseIso(expires);
  }

  /** A timestamp that is not of the printed form counts as past, at any time. */
  lemma UnreadableIsPast(s: string, now: Instant)
    requires |WithoutZ(s)| != 19 || WithoutZ(s)[4] != '-' || WithoutZ(s)[10] != 'T' || !IsDigit(WithoutZ(s)[0])
    ensures InPast(s, now)
  {
  }
}
