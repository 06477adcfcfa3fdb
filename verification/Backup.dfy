/** Backup and restore: cells to JSON and back, one file with every critical table, a transactional
  * restore, and offline verification. Gzip and JSON are taken as the identity on what is written. */
module Backup {
  import opened Options
  import opened Strings

  // --- timestamps ----------------------------------------------------------------------------------

  /** A date and time of day; the offset is in minutes east of UTC, absent when naive. */
  datatype Time = Time(year: int, month: int, day: int, hour: int, minute: int, second: int, micro: int,
          offset: Option<int>)

  predicate Leap(y: int) { y % 4 == 0 && (y % 100 != 0 || y % 400 == 0) }

  function DaysIn(y: int, m: int): int {
    if m == 2 then (if Leap(y) then 29 else 28) else if m in {4, 6, 9, 11} then 30 else 31
  }

  predicate ValidDay(t: Time) { 1 <= t.year <= 9999 && 1 <= t.month <= 12 && 1 <= t.day <= DaysIn(t.year, t.month) }

  predicate ValidClock(t: Time) {
    0 <= t.hour < 24 && 0 <= t.minute < 60 && 0 <= t.second < 60 && 0 <= t.micro < 1000000
  }

  predicate ValidTime(t: Time) {
    ValidDay(t) && ValidClock(t) && (t.offset.Some? ==> -1440 < t.offset.value < 1440)
  }

  /** Zero-padded decimal of a fixed width. */
  function Pad(n: nat, w: nat): (s: string)
    ensures |s| == w
  {
    if w == 0 then "" else Pad(n / 10, w - 1) + [Digit(n % 10)]
  }

  function Pow10(w: nat): nat { if w == 0 then 1 else 10 * Pow10(w - 1) }

  predicate AllDigits(s: string) { forall i :: 0 <= i < |s| ==> '0' <= s[i] <= '9' }

  lemma {:induction false} PadIs(n: nat, w: nat)
    requires n < Pow10(w)
    ensures AllDigits(Pad(n, w)) && Value(Pad(n, w)) == n
  {
    if w > 0 {
      PadIs(n / 10, w - 1);
      var s := Pad(n, w);
      assert s[..w - 1] == Pad(n / 10, w - 1);
    }
  }

  lemma Widths()
    ensures Pow10(2) == 100 && Pow10(4) == 10000 && Pow10(6) == 1000000
  {
    assert Pow10(1) == 10 && Pow10(2) == 100 && Pow10(3) == 1000 && Pow10(4) == 10000 && Pow10(5) == 100000;
  }

  /** The 19 characters up to the seconds. */
  function Stamp(y: string, mo: string, d: string, h: string, mi: string, s: string): string {
    (y + "-" + mo + "-" + d) + ("T" + h + ":" + mi + ":" + s)
  }

  function Head(t: Time): string
    requires ValidTime(t)
  {
    Stamp(Pad(t.year, 4), Pad(t.month, 2), Pad(t.day, 2), Pad(t.hour, 2), Pad(t.minute, 2), Pad(t.second, 2))
  }

  function Micro(n: nat): string { if n == 0 then "" else "." + Pad(n, 6) }

  function Offset(o: Option<int>): string {
    if o.None? then ""
    else
      var m := if o.value < 0 then -o.value else o.value;
      (if o.value < 0 then "-" else "+") + Pad(m / 60, 2) + ":" + Pad(m % 60, 2)
  }

  /** `isoformat`. */
  function Iso(t: Time): string
    requires ValidTime(t)
  {
    Head(t) + (Micro(t.micro) + Offset(t.offset))
  }

  // --- reading timestamps --------------------------------------------------------------------------------

  predicate HeadShape(s: string) {
    |s| >= 19 && s[4] == '-' && s[7] == '-' && s[10] == 'T' && s[13] == ':' && s[16] == ':'
    && AllDigits(s[..4]) && AllDigits(s[5..7]) && AllDigits(s[8..10])
    && AllDigits(s[11..13]) && AllDigits(s[14..16]) && AllDigits(s[17..19])
  }

  /** Fraction and offset behind the seconds. */
  function ReadMicro(s: string): (int, string) {
    if |s| >= 7 && s[0] == '.' && AllDigits(s[1..7]) then (Value(s[1..7]), s[7..]) else (0, s)
  }

  function ReadOffset(s: string): Option<Option<int>> {
    if s == "" then Some(None)
    else if |s| == 6 && (s[0] == '+' || s[0] == '-') && s[3] == ':' && AllDigits(s[1..3]) && AllDigits(s[4..]) then
      var m := 60 * Value(s[1..3]) + Value(s[4..]);
      Some(Some(if s[0] == '-' then -m else m))
    else None
  }

  /** Reads back the format `isoformat` writes. */
  function ParseIso(s: string): Option<Time> {
    if !HeadShape(s) then None
    else
      var (micro, rest) := ReadMicro(s[19..]);
      match ReadOffset(rest)
      case None => None
      case Some(o) =>
        var t := Time(Value(s[..4]), Value(s[5..7]), Value(s[8..10]), Value(s[11..13]), Value(s[14..16]),
                 Value(s[17..19]), micro, o);
        if ValidTime(t) then Some(t) else None
  }

  lemma StampParts(y: string, mo: string, d: string, h: string, mi: string, s: string, rest: string)
    requires |y| == 4 && |mo| == 2 && |d| == 2 && |h| == 2 && |mi| == 2 && |s| == 2
    ensures var r := Stamp(y, mo, d, h, mi, s) + rest;
            |r| == 19 + |rest| && r[..4] == y && r[5..7] == mo && r[8..10] == d && r[11..13] == h && r[14..16] == mi
            && r[17..19] == s && r[19..] == rest
            && r[4] == '-' && r[7] == '-' && r[10] == 'T' && r[13] == ':' && r[16] == ':'
  {
    var date, clock := y + "-" + mo + "-" + d, "T" + h + ":" + mi + ":" + s;
    var r := Stamp(y, mo, d, h, mi, s) + rest;
    assert r[..10] == date && r[10..19] == clock && r[19..] == rest;
    DateParts(y, mo, d);
    ClockParts(h, mi, s);
    assert r[..4] == r[..10][..4] && r[5..7] == r[..10][5..7] && r[8..10] == r[..10][8..];
    assert r[11..13] == r[10..19][1..3] && r[14..16] == r[10..19][4..6] && r[17..19] == r[10..19][7..];
    assert r[4] == r[..10][4] && r[7] == r[..10][7];
    assert r[10] == r[10..19][0] && r[13] == r[10..19][3] && r[16] == r[10..19][6];
  }

  lemma DateParts(y: string, mo: string, d: string)
    requires |y| == 4 && |mo| == 2 && |d| == 2
    ensures var r := y + "-" + mo + "-" + d;
            |r| == 10 && r[..4] == y && r[5..7] == mo && r[8..] == d && r[4] == '-' && r[7] == '-'
  {
  }

  lemma ClockParts(h: string, mi: string, s: string)
    requires |h| == 2 && |mi| == 2 && |s| == 2
    ensures var r := "T" + h + ":" + mi + ":" + s;
            |r| == 9 && r[1..3] == h && r[4..6] == mi && r[7..] == s && r[0] == 'T' && r[3] == ':' && r[6] == ':'
  {
  }

  lemma OffsetReads(o: Option<int>)
    requires o.Some? ==> -1440 < o.value < 1440
    ensures ReadOffset(Offset(o)) == Some(o) && (Offset(o) != "" ==> Offset(o)[0] != '.')
    ensures |Offset(o)| == if o.None? then 0 else 6
  {
    hide Pad, Value, Pow10, AllDigits;
    if o.Some? {
      var m := if o.value < 0 then -o.value else o.value;
      Widths();
      PadIs(m / 60, 2);
      PadIs(m % 60, 2);
      OffsetParts(if o.value < 0 then "-" else "+", Pad(m / 60, 2), Pad(m % 60, 2));
      assert 60 * (m / 60) + m % 60 == m;
    }
  }

  lemma OffsetParts(sign: string, a: string, b: string)
    requires |sign| == 1 && |a| == 2 && |b| == 2
    ensures var s := sign + a + ":" + b; |s| == 6 && s[0] == sign[0] && s[1..3] == a && s[3] == ':' && s[4..] == b
  {
  }

  lemma MicroReads(n: nat, o: Option<int>)
    requires n < 1000000 && (o.Some? ==> -1440 < o.value < 1440)
    ensures ReadMicro(Micro(n) + Offset(o)) == (n, Offset(o))
  {
    OffsetReads(o);
    var s := Micro(n) + Offset(o);
    if n == 0 {
      assert s == Offset(o);
    } else {
      Widths();
      PadIs(n, 6);
      assert s[1..7] == Pad(n, 6) && s[7..] == Offset(o);
    }
  }

  /** Reading back a written timestamp gives that timestamp. */
  lemma ParseUndoesIso(t: Time)
    requires ValidTime(t)
    ensures ParseIso(Iso(t)) == Some(t)
  {
    hide Pad, Stamp, Offset, Micro, ReadOffset, ReadMicro, Pow10, Value;
    var rest := Micro(t.micro) + Offset(t.offset);
    HeadReads(t, rest);
    MicroReads(t.micro, t.offset);
    OffsetReads(t.offset);
  }

  lemma HeadReads(t: Time, rest: string)
    requires ValidTime(t)
    ensures var s := Head(t) + rest;
            HeadShape(s) && Value(s[..4]) == t.year && Value(s[5..7]) == t.month && Value(s[8..10]) == t.day
            && Value(s[11..13]) == t.hour && Value(s[14..16]) == t.minute && Value(s[17..19]) == t.second
            && s[19..] == rest
  {
    hide Pad, Stamp, Pow10, Value, AllDigits;
    Widths();
    PadIs(t.year, 4);
    PadIs(t.month, 2);
    PadIs(t.day, 2);
    PadIs(t.hour, 2);
    PadIs(t.minute, 2);
    PadIs(t.second, 2);
    StampParts(Pad(t.year, 4), Pad(t.month, 2), Pad(t.day, 2), Pad(t.hour, 2), Pad(t.minute, 2), Pad(t.second, 2),
      rest);
  }

  // --- cells ------------------------------------------------------------------------------------------------

  /** A database value: text, a timestamp, or anything that JSON carries as it is, with its truth value
    * (zero, false and empty lists and objects are false). */
  datatype Cell = Null | Text(text: string) | Stamped(time: Time) | Other(id: int, truthy: bool)
  datatype Json = JNull | JText(text: string) | JOther(id: int, truthy: bool)

  predicate ValidCell(c: Cell) { c.Stamped? ==> ValidTime(c.time) }

  /** A naive timestamp is taken as UTC; an aware one keeps its offset. */
  function Aware(t: Time): Time { if t.offset.None? then t.(offset := Some(0)) else t }

  function Normal(c: Cell): Cell { if c.Stamped? then Stamped(Aware(c.time)) else c }

  function Serialise(c: Cell): Json
    requires ValidCell(c)
  {
    match c
    case Null => JNull
    case Text(s) => JText(s)
    case Stamped(t) => JText(Iso(Aware(t)))
    case Other(n, truthy) => JOther(n, truthy)
  }

  function Dashes(s: string): nat { if s == "" then 0 else (if s[0] == '-' then 1 else 0) + Dashes(s[1..]) }

  /** The test for strings that look like timestamps. */
  predicate LooksStamped(s: string) {
    |s| >= 19 && 'T' in s && (s[|s| - 1] == 'Z' || '+' in s || Dashes(s) >= 3)
  }

  /** `fromisoformat`: the format `isoformat` writes, and whatever else the library accepts. */
  type Lenient = string -> Option<Time>

  function FromIso(s: string, more: Lenient): Option<Time> {
    match ParseIso(s)
    case Some(t) => Some(t)
    case None => more(s)
  }

  /** `_deserialise_value`. */
  function Deserialise(j: Json, more: Lenient): Cell {
    match j
    case JNull => Null
    case JOther(n, truthy) => Other(n, truthy)
    case JText(s) =>
      if LooksStamped(s) then
        match FromIso(Replace(s, "Z", "+00:00"), more)
        case Some(t) => Stamped(t)
        case None => Text(s)
      else Text(s)
  }

  /** A string cell that comes back as a timestamp. */
  predicate Mistaken(c: Cell, more: Lenient) {
    c.Text? && LooksStamped(c.text) && FromIso(Replace(c.text, "Z", "+00:00"), more).Some?
  }

  lemma {:induction false} DashesJoin(a: string, b: string)
    ensures Dashes(a + b) == Dashes(a) + Dashes(b)
  {
    if a == "" {
      assert a + b == b;
    } else {
      DashesJoin(a[1..], b);
      assert (a + b)[1..] == a[1..] + b;
    }
  }

  lemma {:induction false} DashCounts(s: string, i: nat)
    requires i < |s| && s[i] == '-'
    ensures Dashes(s) == Dashes(s[..i]) + 1 + Dashes(s[i + 1..])
  {
    assert s == s[..i] + s[i..] && s[i..][1..] == s[i + 1..];
    DashesJoin(s[..i], s[i..]);
  }

  lemma {:induction false} NoZReplace(s: string)
    requires 'Z' !in s
    ensures Replace(s, "Z", "+00:00") == s
  {
    if s != "" {
      NoZReplace(s[1..]);
      assert !("Z" <= s) by { assert s[0] != 'Z'; }
    }
  }

  /** Every written timestamp is recognised as one: long enough, a T, and a plus sign or, west of UTC,
    * a third dash. */
  lemma IsoLooksStamped(t: Time)
    requires ValidTime(t) && t.offset.Some?
    ensures LooksStamped(Iso(t)) && 'Z' !in Iso(t)
  {
    hide Pad, Stamp, Offset, Micro, Value;
    var rest := Micro(t.micro) + Offset(t.offset);
    var s := Iso(t);
    HeadReads(t, rest);
    assert s == Head(t) + rest;
    assert s[10] == 'T';
    HeadCharacters(t);
    TailCharacters(t.micro, t.offset);
    if t.offset.value < 0 {
      DashCounts(s, 4);
      var r := s[5..];
      assert r[2] == '-' && r[3..] == s[8..];
      DashCounts(r, 2);
      var k := 19 + |Micro(t.micro)| - 8;
      assert s[8..][k] == rest[|Micro(t.micro)|] == Offset(t.offset)[0];
      DashCounts(s[8..], k);
    } else {
      assert rest[|Micro(t.micro)|] == Offset(t.offset)[0] == '+';
      assert s[19 + |Micro(t.micro)|] == '+';
    }
  }

  predicate StampChars(s: string) { forall i :: 0 <= i < |s| ==> s[i] != 'Z' }

  lemma PadCharacters(n: nat, w: nat)
    ensures AllDigits(Pad(n, w)) && StampChars(Pad(n, w))
  {
    if w > 0 { PadCharacters(n / 10, w - 1); }
  }

  lemma HeadCharacters(t: Time)
    requires ValidTime(t)
    ensures StampChars(Head(t))
  {
    hide Pad, AllDigits;
    PadCharacters(t.year, 4);
    PadCharacters(t.month, 2);
    PadCharacters(t.day, 2);
    PadCharacters(t.hour, 2);
    PadCharacters(t.minute, 2);
    PadCharacters(t.second, 2);
  }

  lemma TailCharacters(n: nat, o: Option<int>)
    requires o.Some? && -1440 < o.value < 1440
    ensures StampChars(Micro(n) + Offset(o)) && |Offset(o)| == 6
    ensures Offset(o)[0] == if o.value < 0 then '-' else '+'
  {
    hide Pad, AllDigits;
    var m := if o.value < 0 then -o.value else o.value;
    PadCharacters(n, 6);
    PadCharacters(m / 60, 2);
    PadCharacters(m % 60, 2);
  }

  /** A cell comes back as it was, up to the UTC mark on naive timestamps, if and only if it is not a
    * string that reads as a timestamp. */
  lemma CellRoundTripIff(c: Cell, more: Lenient)
    requires ValidCell(c)
    ensures Deserialise(Serialise(c), more) == Normal(c) <==> !Mistaken(c, more)
  {
    hide Iso, ParseIso, LooksStamped, Replace;
    if c.Stamped? {
      var t := Aware(c.time);
      IsoLooksStamped(t);
      NoZReplace(Iso(t));
      ParseUndoesIso(t);
    }
  }

  /** Such strings exist whatever else the library accepts: any written timestamp, stored as text. */
  lemma TimestampTextIsMistaken(t: Time, more: Lenient)
    requires ValidTime(t) && t.offset.Some?
    ensures Deserialise(Serialise(Text(Iso(t))), more) == Stamped(t)
  {
    hide Iso, ParseIso, LooksStamped, Replace;
    IsoLooksStamped(t);
    NoZReplace(Iso(t));
    ParseUndoesIso(t);
  }

  /** A stored timestamp comes back as it was; a naive one comes back marked as UTC. */
  lemma StampedComesBack(t: Time, more: Lenient)
    requires ValidTime(t)
    ensures Deserialise(Serialise(Stamped(t)), more)
            == Stamped(if t.offset.None? then t.(offset := Some(0)) else t)
  {
    CellRoundTripIff(Stamped(t), more);
  }

  lemma {:induction false} NoDashes(s: string)
    requires '-' !in s
    ensures Dashes(s) == 0
  {
    if s != "" { NoDashes(s[1..]); }
  }

  lemma NaiveCharacters(t: Time, i: nat)
    requires ValidTime(t) && t.offset.None? && 8 <= i < |Iso(t)|
    ensures Iso(t)[i] == 'T' || Iso(t)[i] == ':' || Iso(t)[i] == '.' || '0' <= Iso(t)[i] <= '9'
  {
    hide Pad, Stamp, Value;
    var s, rest := Iso(t), Micro(t.micro);
    HeadReads(t, rest + "");
    assert s == Head(t) + rest;
    PadCharacters(t.micro, 6);
    if i >= 19 {
      assert s[i] == s[19..][i - 19];
    } else if i < 10 {
      assert s[i] == s[8..10][i - 8];
    } else if i < 13 {
      assert i > 10 ==> s[i] == s[11..13][i - 11];
    } else if i < 16 {
      assert i > 13 ==> s[i] == s[14..16][i - 14];
    } else {
      assert i > 16 ==> s[i] == s[17..19][i - 17];
    }
  }

  lemma NaiveDashes(t: Time)
    requires ValidTime(t) && t.offset.None?
    ensures Dashes(Iso(t)) == 2
  {
    hide Pad, Stamp, Micro, Value, Dashes;
    var s := Iso(t);
    HeadReads(t, Micro(t.micro) + Offset(t.offset));
    DashCounts(s, 4);
    DashCounts(s[5..], 2);
    assert s[5..][..2] == s[5..7] && s[5..][3..] == s[8..];
    NoDashes(s[..4]);
    NoDashes(s[5..7]);
    forall i | 8 <= i < |s| ensures s[i] != '-' { NaiveCharacters(t, i); }
    NoDashes(s[8..]);
  }

  /** A naive timestamp stored as text has two dashes, no plus sign and no Z, and stays text. */
  lemma NaiveTextStays(t: Time, more: Lenient)
    requires ValidTime(t) && t.offset.None?
    ensures Deserialise(Serialise(Text(Iso(t))), more) == Text(Iso(t))
  {
    hide Pad, Stamp, Micro, Value, Dashes, ParseIso, Replace;
    var s := Iso(t);
    HeadReads(t, Micro(t.micro) + Offset(t.offset));
    NaiveDashes(t);
    forall i | 8 <= i < |s| ensures s[i] != '+' && s[i] != 'Z' { NaiveCharacters(t, i); }
    assert forall i :: 0 <= i < 4 ==> s[i] == s[..4][i];
    assert forall i :: 5 <= i < 7 ==> s[i] == s[5..7][i - 5];
  }

  lemma {:induction false} ReplaceLastZ(s: string, with: string)
    requires 'Z' !in s
    ensures Replace(s + "Z", "Z", with) == s + with
  {
    var z := s + "Z";
    if s == "" {
      assert z[1..] == "" && "Z" <= z;
      assert with + "" == with;
    } else {
      ReplaceLastZ(s[1..], with);
      assert z[1..] == s[1..] + "Z" && z[0] == s[0];
      assert !("Z" <= z);
    }
  }

  /** A text that is a naive timestamp with a Z behind it comes back as that time in UTC. */
  lemma ZuluTextIsUtc(t: Time, more: Lenient)
    requires ValidTime(t) && t.offset.None?
    ensures Deserialise(Serialise(Text(Iso(t) + "Z")), more) == Stamped(Aware(t))
  {
    hide ParseIso, Pad, Stamp, Value;
    var utc := Aware(t);
    HeadReads(t, Micro(t.micro) + Offset(t.offset));
    HeadReads(utc, Micro(utc.micro) + Offset(utc.offset));
    UtcIs();
    assert Head(utc) == Head(t);
    assert Iso(utc) == Iso(t) + "+00:00";
    assert Iso(t)[10] == 'T';
    HeadCharacters(t);
    forall i | 0 <= i < |Iso(t)| ensures Iso(t)[i] != 'Z' {
      if i >= 19 { NaiveCharacters(t, i); } else { assert Iso(t)[i] == Head(t)[i]; }
    }
    ReplaceLastZ(Iso(t), "+00:00");
    ParseUndoesIso(utc);
  }

  lemma {:induction false} PadZero(w: nat)
    ensures Pad(0, w) == seq(w, i => '0')
  {
    if w > 0 { PadZero(w - 1); }
  }

  lemma UtcIs()
    ensures Offset(Some(0)) == "+00:00"
  {
    hide Pad;
    PadZero(2);
    assert Pad(0, 2) == "00";
  }

  /** Backing up a restored cell writes the same JSON again. */
  lemma SerialiseIsStable(c: Cell)
    requires ValidCell(c)
    ensures ValidCell(Normal(c)) && Serialise(Normal(c)) == Serialise(c)
  {
  }
}
