/** The reminder time picker (client/src/components/ui/ClockPicker2.jsx): a
    12-hour dial with an AM/PM flag that reads and writes "HH:MM" values in
    24-hour form. The dial's angle arithmetic is not part of this model; a
    pick on the dial is the hour index or minute it lands on. */
module ClockPicker {
  import opened Common
  import opened Text
  import ExtractMedicines

  /** The minute state: a number, NaN, or `undefined` (what the value
      effect stores for a value with no ':'). */
  datatype Minute = MinuteOf(m: nat) | NotANumber | Missing

  /** The picker's state: the 12-hour dial hour, the minute and the PM
      flag. */
  datatype Picker = Picker(hour: nat, minute: Minute, pm: bool)

  /** `Number(s)` for a field of the value: the digits' value, or NaN
      (None) for anything else. The empty field is 0. */
  function NumberOf(s: string): (r: Option<nat>)
    ensures r.Some? <==> forall i :: 0 <= i < |s| ==> IsDigit(s[i])
    ensures s == "" ==> r == Some(0)
  {
    if forall i :: 0 <= i < |s| ==> IsDigit(s[i]) then Some(DigitsValue(s)) else None
  }

  /** A 24-hour hour on the 12-hour dial: 0 is 12, 13..23 lose 12. */
  function To12(h: nat): (r: nat)
    ensures h < 24 ==> 1 <= r <= 12
    ensures h == 0 ==> r == 12
    ensures 0 < h <= 12 ==> r == h
    ensures h > 12 ==> r == h - 12
  {
    if h == 0 then 12 else if h > 12 then h - 12 else h
  }

  predicate IsPm(h: nat)
  {
    h >= 12
  }

  /** `to24`: the dial hour modulo 12, plus 12 in the afternoon. */
  function To24(h12: nat, pm: bool): (r: nat)
    ensures r < 24
    ensures pm <==> r >= 12
    ensures r % 12 == h12 % 12
  {
    h12 % 12 + (if pm then 12 else 0)
  }

  /** Every 24-hour hour survives the trip to the dial and back. */
  lemma HourRoundTrip(h: nat)
    requires h < 24
    ensures To24(To12(h), IsPm(h)) == h
  {
  }

  /** The initial state (`useState` initialisers): an empty hour field is
      8, an hour that is not a number gives 8 AM; an empty or absent minute
      field is 0. */
  function Init(value: string): (p: Picker)
    ensures var f := ExtractMedicines.Split(value, ':');
      f[0] != "" && NumberOf(f[0]).None? ==> p.hour == 8 && !p.pm
    ensures ExtractMedicines.Split(value, ':')[0] == "" ==> p.hour == 8 && !p.pm
  {
    var f := ExtractMedicines.Split(value, ':');
    var h := if f[0] == "" then Some(8) else NumberOf(f[0]);
    var minute :=
      if |f| < 2 || f[1] == "" then MinuteOf(0)
      else match NumberOf(f[1]) case Some(m) => MinuteOf(m) case None => NotANumber;
    match h
    case None => Picker(8, minute, false)
    case Some(hv) => Picker(To12(hv), minute, IsPm(hv))
  }

  /** The effect on `value` ("08:00" when empty): a numeric hour sets the
      dial hour and the PM flag, and any minute that is not NaN (including
      a missing one) replaces the minute; NaN leaves the state alone. */
  function Sync(p: Picker, value: string): (r: Picker)
    ensures var f := ExtractMedicines.Split(if value == "" then "08:00" else value, ':');
      (NumberOf(f[0]).None? ==> r.hour == p.hour && r.pm == p.pm) &&
      (NumberOf(f[0]).Some? ==> r.hour == To12(NumberOf(f[0]).value) && r.pm == IsPm(NumberOf(f[0]).value)) &&
      (|f| >= 2 && NumberOf(f[1]).None? ==> r.minute == p.minute)
  {
    var f := ExtractMedicines.Split(if value == "" then "08:00" else value, ':');
    var p1 := match NumberOf(f[0])
      case Some(h) => p.(hour := To12(h), pm := IsPm(h))
      case None => p;
    if |f| < 2 then p1.(minute := Missing)
    else match NumberOf(f[1])
      case Some(m) => p1.(minute := MinuteOf(m))
      case None => p1
  }

  /** `String(n).padStart(2, "0")`, with NaN and undefined as JavaScript
      writes them. */
  function MinuteText(m: Minute): string
  {
    match m
    case MinuteOf(v) => PadStart2(NatToString(v))
    case NotANumber => "NaN"
    case Missing => "undefined"
  }

  /** `display()`: the 24-hour hour and the minute, each padded to two
      digits. `emit` writes the same text for the values it is given; the
      pointer-up handler passes the hour and minute of the render in which
      the drag began, not the picked ones, which this model does not follow. */
  function Display(p: Picker): string
  {
    PadStart2(NatToString(To24(p.hour, p.pm))) + ":" + MinuteText(p.minute)
  }

  /** A pick on the hour ring: index 0 is 12. */
  function PickHour(p: Picker, idx: nat): (r: Picker)
    requires idx < 12
    ensures 1 <= r.hour <= 12 && r.minute == p.minute && r.pm == p.pm
    ensures r.hour % 12 == idx
  {
    p.(hour := if idx == 0 then 12 else idx)
  }

  /** A pick on the minute ring. */
  function PickMinute(p: Picker, m: nat): (r: Picker)
    requires m < 60
    ensures r == p.(minute := MinuteOf(m))
  {
    p.(minute := MinuteOf(m))
  }

  /** The value emitted after a numeric minute is always zero-padded
      "HH:MM", whose hour field reads back as the 24-hour hour and whose
      minute field reads back as the minute. */
  lemma DisplayShape(p: Picker)
    requires p.minute.MinuteOf? && p.minute.m < 60
    ensures var s := Display(p);
      |s| == 5 && s[2] == ':' &&
      IsDigit(s[0]) && IsDigit(s[1]) && IsDigit(s[3]) && IsDigit(s[4]) &&
      DigitsValue(s[..2]) == To24(p.hour, p.pm) && DigitsValue(s[3..]) == p.minute.m
  {
    var hh := PadStart2(NatToString(To24(p.hour, p.pm)));
    var mm := PadStart2(NatToString(p.minute.m));
    Pad2Digits(To24(p.hour, p.pm));
    Pad2Digits(p.minute.m);
    var s := Display(p);
    assert s == hh + ":" + mm;
    assert s[..2] == hh;
    assert s[3..] == mm;
  }

  /** A well-formed 24-hour value: two digits of hour below 24, ':', and
      two digits of minute below 60. */
  predicate WellFormed(v: string)
  {
    |v| == 5 && v[2] == ':' &&
    IsDigit(v[0]) && IsDigit(v[1]) && IsDigit(v[3]) && IsDigit(v[4]) &&
    DigitsValue(v[..2]) < 24 && DigitsValue(v[3..]) < 60
  }

  /** One step of `split`: a leading character other than the separator
      joins the first piece. */
  lemma SplitCons(c: char, w: string, sep: char)
    requires c != sep
    ensures ExtractMedicines.Split([c] + w, sep) ==
      [[c] + ExtractMedicines.Split(w, sep)[0]] + ExtractMedicines.Split(w, sep)[1..]
  {
    assert ([c] + w)[1..] == w;
  }

  /** "HH:MM" splits into its hour and minute fields. */
  lemma SplitTime(v: string)
    requires |v| == 5 && v[2] == ':' && v[0] != ':' && v[1] != ':' && v[3] != ':' && v[4] != ':'
    ensures ExtractMedicines.Split(v, ':') == [v[..2], v[3..]]
  {
    var w4 := [v[4]];
    var w3 := [v[3]] + w4;
    var w2 := [':'] + w3;
    var w1 := [v[1]] + w2;
    assert v == [v[0]] + w1;
    assert w4 == [v[4]] + [];
    SplitCons(v[4], [], ':');
    assert ExtractMedicines.Split(w4, ':') == [[v[4]]];
    SplitCons(v[3], w4, ':');
    assert [[v[4]]][1..] == [];
    assert [v[3]] + [v[4]] == [v[3], v[4]];
    assert ExtractMedicines.Split(w3, ':') == [[v[3], v[4]]];
    assert w2[1..] == w3;
    assert ExtractMedicines.Split(w2, ':') == ["", [v[3], v[4]]];
    SplitCons(v[1], w2, ':');
    assert ["", [v[3], v[4]]][1..] == [[v[3], v[4]]];
    assert [v[1]] + "" == [v[1]];
    assert ExtractMedicines.Split(w1, ':') == [[v[1]], [v[3], v[4]]];
    SplitCons(v[0], w1, ':');
    assert [[v[1]], [v[3], v[4]]][1..] == [[v[3], v[4]]];
    assert [v[0]] + [v[1]] == [v[0], v[1]];
    assert v[..2] == [v[0], v[1]];
    assert v[3..] == [v[3], v[4]];
  }

  /** The value of a two-digit string. */
  lemma TwoDigitsValue(a: string)
    requires |a| == 2 && IsDigit(a[0]) && IsDigit(a[1])
    ensures DigitsValue(a) == 10 * DigitValue(a[0]) + DigitValue(a[1])
  {
    assert a[..1][..0] == [];
    assert a[..1][0] == a[0];
    assert DigitsValue(a[..1]) == DigitValue(a[0]);
  }

  /** Two two-digit strings of the same value are the same string. */
  lemma TwoDigitsUnique(a: string, b: string)
    requires |a| == 2 && IsDigit(a[0]) && IsDigit(a[1])
    requires |b| == 2 && IsDigit(b[0]) && IsDigit(b[1])
    requires DigitsValue(a) == DigitsValue(b)
    ensures a == b
  {
    TwoDigitsValue(a);
    TwoDigitsValue(b);
    assert DigitValue(a[0]) == DigitValue(b[0]);
    assert a[0] == b[0] && a[1] == b[1];
  }

  /** A well-formed value shown by the picker reads exactly as it was
      given, whatever the state before: the dial and flag keep the hour,
      and display writes it back unchanged. */
  lemma SyncDisplayRoundTrip(p: Picker, v: string)
    requires WellFormed(v)
    ensures Display(Sync(p, v)) == v
  {
    SplitTime(v);
    var h := DigitsValue(v[..2]);
    var m := DigitsValue(v[3..]);
    var r := Sync(p, v);
    assert NumberOf(v[..2]) == Some(h);
    assert NumberOf(v[3..]) == Some(m);
    assert r.hour == To12(h) && r.pm == IsPm(h) && r.minute == MinuteOf(m);
    HourRoundTrip(h);
    DisplayShape(r);
    var s := Display(r);
    TwoDigitsUnique(s[..2], v[..2]);
    TwoDigitsUnique(s[3..], v[3..]);
    assert s == s[..2] + ":" + s[3..];
    assert v == v[..2] + ":" + v[3..];
  }
}
