/**
 The calendar arithmetic of the log retention in src-tauri/src/file_log.rs, against day-by-day
 counting in the proleptic Gregorian calendar (section 3.2.1 of ISO 8601:2004).
 */
module Calendar {
  import opened Text
  import opened Wrappers

  /** Year 0 and negative years included. */
  datatype Date = Date(year: int, month: nat, day: nat)

  const EPOCH := Date(1970, 1, 1)
  const DAY_MILLIS: nat := 86_400_000

  // ---------------------------------------------------------------------------
  // The source's formula
  // ---------------------------------------------------------------------------

  /** Integer division as Rust has it, towards zero. */
  function Quotient(a: int, b: int): int
    requires b > 0
  {
    if a >= 0 then a / b else -((-a) / b)
  }

  function DaysFromCivil(year: int, month: nat, day: nat): int {
    var y := if month <= 2 then year - 1 else year;
    var era := Quotient(if y >= 0 then y else y - 399, 400);
    var yoe := y - era * 400;
    var mp := (month + 9) % 12;
    var doy := Quotient(153 * mp + 2, 5) + day - 1;
    var doe := yoe * 365 + Quotient(yoe, 4) - Quotient(yoe, 100) + doy;
    era * 146_097 + doe - 719_468
  }

  function Days(d: Date): int {
    DaysFromCivil(d.year, d.month, d.day)
  }

  // ---------------------------------------------------------------------------
  // The calendar
  // ---------------------------------------------------------------------------

  predicate IsLeap(year: int) {
    year % 4 == 0 && (year % 100 != 0 || year % 400 == 0)
  }

  function MonthLength(year: int, month: nat): nat {
    if month == 2 then (if IsLeap(year) then 29 else 28)
    else if month == 4 || month == 6 || month == 9 || month == 11 then 30
    else 31
  }

  predicate Valid(d: Date) {
    1 <= d.month <= 12 && 1 <= d.day <= MonthLength(d.year, d.month)
  }

  function Next(d: Date): Date {
    if d.day < MonthLength(d.year, d.month) then d.(day := d.day + 1)
    else if d.month < 12 then Date(d.year, d.month + 1, 1)
    else Date(d.year + 1, 1, 1)
  }

  function Advance(d: Date, days: nat): Date
    decreases days
  {
    if days == 0 then d else Advance(Next(d), days - 1)
  }

  predicate Before(a: Date, b: Date) {
    || a.year < b.year
    || (a.year == b.year && (a.month < b.month || (a.month == b.month && a.day < b.day)))
  }

  // ---------------------------------------------------------------------------
  // The formula counts days
  // ---------------------------------------------------------------------------

  /** Days before the first of March of year `y`, up to a constant. */
  function MarchFirst(y: int): int {
    365 * y + y / 4 - y / 100 + y / 400
  }

  lemma EraSplit(y: int)
    ensures
      var era := Quotient(if y >= 0 then y else y - 399, 400);
      var yoe := y - era * 400;
      && era == y / 400 && 0 <= yoe < 400
      && y / 4 == 100 * era + yoe / 4 && y / 100 == 4 * era + yoe / 100
  {
    var era := Quotient(if y >= 0 then y else y - 399, 400);
    if y < 0 {
      assert (399 - y) / 400 == -(y / 400);
    }
    assert era == y / 400;
  }

  /** Days from the first of March to the first of `month`. */
  function SinceMarch(month: nat): nat {
    if month == 3 then 0 else if month == 4 then 31 else if month == 5 then 61 else if month == 6 then 92
    else if month == 7 then 122 else if month == 8 then 153 else if month == 9 then 184
    else if month == 10 then 214 else if month == 11 then 245 else if month == 12 then 275
    else if month == 1 then 306 else 337
  }

  lemma ClosedForm(year: int, month: nat, day: nat)
    requires 1 <= month <= 12
    ensures
      var y := if month <= 2 then year - 1 else year;
      DaysFromCivil(year, month, day) == MarchFirst(y) + SinceMarch(month) + day - 719_469
  {
    EraSplit(if month <= 2 then year - 1 else year);
  }

  lemma QuotientSteps(y: int)
    ensures (y + 1) / 4 - y / 4 == if (y + 1) % 4 == 0 then 1 else 0
    ensures (y + 1) / 100 - y / 100 == if (y + 1) % 100 == 0 then 1 else 0
    ensures (y + 1) / 400 - y / 400 == if (y + 1) % 400 == 0 then 1 else 0
  {
  }

  lemma Centuries(y: int)
    ensures y % 100 == 0 ==> y % 4 == 0
    ensures y % 400 == 0 ==> y % 100 == 0
  {
  }

  lemma YearLength(y: int)
    ensures MarchFirst(y + 1) - MarchFirst(y) == if IsLeap(y + 1) then 366 else 365
  {
    QuotientSteps(y);
    Centuries(y + 1);
  }

  /** The day after counts one more. */
  lemma NextDay(d: Date)
    requires Valid(d)
    ensures Valid(Next(d)) && Days(Next(d)) == Days(d) + 1
  {
    var y := if d.month <= 2 then d.year - 1 else d.year;
    ClosedForm(d.year, d.month, d.day);
    ClosedForm(Next(d).year, Next(d).month, Next(d).day);
    if d.month == 2 {
      YearLength(y);
    }
  }

  lemma {:induction false} AdvanceCounts(d: Date, days: nat)
    requires Valid(d)
    ensures Valid(Advance(d, days)) && Days(Advance(d, days)) == Days(d) + days
    decreases days
  {
    if days > 0 {
      NextDay(d);
      AdvanceCounts(Next(d), days - 1);
    }
  }

  function Rank(d: Date): int {
    d.year * 372 + d.month * 31 + d.day
  }

  /** Strictly increasing over valid dates. */
  lemma {:induction false} Increasing(a: Date, b: Date)
    requires Valid(a) && Valid(b) && Before(a, b)
    ensures Days(a) < Days(b)
    decreases Rank(b) - Rank(a)
  {
    NextDay(a);
    if Next(a) != b {
      Increasing(Next(a), b);
    }
  }

  lemma OneDatePerDay(a: Date, b: Date)
    requires Valid(a) && Valid(b)
    ensures Days(a) == Days(b) <==> a == b
    ensures Days(a) < Days(b) <==> Before(a, b)
  {
    if Before(a, b) {
      Increasing(a, b);
    } else if Before(b, a) {
      Increasing(b, a);
    }
  }

  /** The formula is day-by-day counting from the epoch, forwards and backwards. */
  lemma DayByDay(d: Date)
    requires Valid(d)
    ensures Days(d) >= 0 ==> Advance(EPOCH, Days(d)) == d
    ensures Days(d) < 0 ==> Advance(d, -Days(d)) == EPOCH
  {
    assert Days(EPOCH) == 0;
    if Days(d) >= 0 {
      AdvanceCounts(EPOCH, Days(d));
      OneDatePerDay(Advance(EPOCH, Days(d)), d);
    } else {
      AdvanceCounts(d, -Days(d));
      OneDatePerDay(Advance(d, -Days(d)), EPOCH);
    }
  }

  // ---------------------------------------------------------------------------
  // Retention
  // ---------------------------------------------------------------------------

  const KINDS := ["app", "core", "substore"]

  /** The date part behind `kind-`, or nothing if the name is not a dated log. */
  function DatePart(name: string, kind: string): Option<string> {
    if |name| == |kind| + 15 && kind + "-" <= name && name[|kind| + 11..] == ".log"
    then Some(name[|kind| + 1..|kind| + 11]) else None
  }

  /** `parse_log_file_stamp`: any day up to 31 is let through. */
  function StampOf(name: string): Option<int> {
    var part :=
      if DatePart(name, "app").Some? then DatePart(name, "app")
      else if DatePart(name, "core").Some? then DatePart(name, "core")
      else DatePart(name, "substore");
    match part
    case None => None
    case Some(s) =>
      if !(s[4] == '-' && s[7] == '-' && AllDigits(s[..4]) && AllDigits(s[5..7]) && AllDigits(s[8..])) then None
      else
        var month, day := Value(s[5..7]), Value(s[8..]);
        if !(1 <= month <= 12 && 1 <= day <= 31) then None
        else Some(DaysFromCivil(Value(s[..4]), month, day) * DAY_MILLIS)
  }

  function LogName(kind: string, d: Date): string
    requires 0 <= d.year
  {
    kind + "-" + Digits(d.year, 4) + "-" + Digits(d.month, 2) + "-" + Digits(d.day, 2) + ".log"
  }

  predicate Expired(name: string, today: Date, retentionDays: int) {
    StampOf(name).Some? && Days(today) * DAY_MILLIS - StampOf(name).value >= retentionDays * DAY_MILLIS
  }

  function Filter(keep: string -> bool, names: seq<string>): seq<string> {
    if names == [] then []
    else (if keep(names[0]) then [names[0]] else []) + Filter(keep, names[1..])
  }

  lemma {:induction false} FilterSnoc(keep: string -> bool, names: seq<string>, name: string)
    ensures Filter(keep, names + [name]) == Filter(keep, names) + (if keep(name) then [name] else [])
  {
    if names == [] {
      assert [] + [name] == [name] && [name][1..] == [];
    } else {
      assert (names + [name])[1..] == names[1..] + [name];
      FilterSnoc(keep, names[1..], name);
    }
  }

  lemma FilterNext(keep: string -> bool, names: seq<string>, i: nat)
    requires i < |names|
    ensures Filter(keep, names[..i + 1]) == Filter(keep, names[..i]) + if keep(names[i]) then [names[i]] else []
  {
    FilterSnoc(keep, names[..i], names[i]);
    assert names[..i] + [names[i]] == names[..i + 1];
  }

  /** `cleanup_expired` over a directory listing; `stuck` names cannot be removed. */
  method CleanupExpired(names: seq<string>, today: Date, retentionDays: int, stuck: set<string>) returns (left: seq<string>)
    ensures left == Filter(name => !Expired(name, today, retentionDays) || name in stuck, names)
  {
    ghost var keep := name => !Expired(name, today, retentionDays) || name in stuck;
    left := [];
    for i := 0 to |names|
      invariant left == Filter(keep, names[..i])
    {
      var name := names[i];
      FilterNext(keep, names, i);
      var removed := Expired(name, today, retentionDays) && name !in stuck;
      assert keep(name) == !removed;
      if !removed {
        left := left + [name];
      }
    }
    assert names[..|names|] == names;
  }

  lemma NameParts(kind: string, part: string)
    requires kind in KINDS && |part| == 10
    ensures DatePart(kind + "-" + part + ".log", kind) == Some(part)
  {
    var name := kind + "-" + part + ".log";
    assert name[|kind| + 1..|kind| + 11] == part;
    assert name[|kind| + 11..] == ".log";
  }

  /** `name` is a kind, four digits, two for a month, two for a day up to 31, and the extension. */
  predicate IsDatedLog(name: string, kind: string, year: nat, month: nat, day: nat) {
    && kind in KINDS && year <= 9999 && 1 <= month <= 12 && 1 <= day <= 31
    && name == kind + "-" + Digits(year, 4) + "-" + Digits(month, 2) + "-" + Digits(day, 2) + ".log"
  }

  /** Digits are determined by their value. */
  lemma {:induction false} DigitsOfValue(s: string)
    requires AllDigits(s)
    ensures Value(s) < Pow10(|s|) && Digits(Value(s), |s|) == s
    decreases |s|
  {
    if s != [] {
      DigitsOfValue(s[..|s| - 1]);
      assert s == s[..|s| - 1] + [s[|s| - 1]];
    }
  }

  lemma Powers()
    ensures Pow10(2) == 100 && Pow10(4) == 10000
  {
    assert Pow10(1) == 10 && Pow10(3) == 1000;
  }

  lemma PartOfName(name: string, kind: string)
    requires DatePart(name, kind).Some?
    ensures name == kind + "-" + DatePart(name, kind).value + ".log"
  {
    assert name == name[..|kind| + 1] + name[|kind| + 1..|kind| + 11] + name[|kind| + 11..];
    assert name[..|kind| + 1] == kind + "-";
  }

  lemma PartIsDate(part: string)
    requires |part| == 10 && part[4] == '-' && part[7] == '-'
    requires AllDigits(part[..4]) && AllDigits(part[5..7]) && AllDigits(part[8..])
    ensures Value(part[..4]) <= 9999
    ensures part == Digits(Value(part[..4]), 4) + "-" + Digits(Value(part[5..7]), 2) + "-" + Digits(Value(part[8..]), 2)
  {
    DigitsOfValue(part[..4]);
    DigitsOfValue(part[5..7]);
    DigitsOfValue(part[8..]);
    Powers();
    assert part == part[..4] + "-" + part[5..7] + "-" + part[8..];
  }

  lemma NameOfParts(name: string, kind: string, part: string, y: string, m: string, d: string)
    requires name == kind + "-" + part + ".log" && part == y + "-" + m + "-" + d
    ensures name == kind + "-" + y + "-" + m + "-" + d + ".log"
  {
  }

  lemma StampIsOfDatedLog(name: string) returns (kind: string, year: nat, month: nat, day: nat)
    requires StampOf(name).Some?
    ensures IsDatedLog(name, kind, year, month, day)
    ensures StampOf(name).value == DaysFromCivil(year, month, day) * DAY_MILLIS
  {
    kind := if DatePart(name, "app").Some? then "app" else if DatePart(name, "core").Some? then "core" else "substore";
    var part := DatePart(name, kind).value;
    year, month, day := Value(part[..4]), Value(part[5..7]), Value(part[8..]);
    PartOfName(name, kind);
    PartIsDate(part);
    NameOfParts(name, kind, part, Digits(year, 4), Digits(month, 2), Digits(day, 2));
  }

  lemma DatedPart(kind: string, year: nat, month: nat, day: nat)
    requires kind in KINDS
    ensures
      var part := Digits(year, 4) + "-" + Digits(month, 2) + "-" + Digits(day, 2);
      && DatePart(kind + "-" + Digits(year, 4) + "-" + Digits(month, 2) + "-" + Digits(day, 2) + ".log", kind) == Some(part)
      && part[4] == '-' && part[7] == '-'
      && part[..4] == Digits(year, 4) && part[5..7] == Digits(month, 2) && part[8..] == Digits(day, 2)
  {
    var part := Digits(year, 4) + "-" + Digits(month, 2) + "-" + Digits(day, 2);
    NameParts(kind, part);
    assert kind + "-" + part + ".log" ==
           kind + "-" + Digits(year, 4) + "-" + Digits(month, 2) + "-" + Digits(day, 2) + ".log";
  }

  /** The name is a dated log of one kind at most. */
  lemma OneKind(name: string, kind: string)
    requires kind in KINDS && DatePart(name, kind).Some?
    ensures forall other <- KINDS :: DatePart(name, other).Some? ==> other == kind
  {
    forall other <- KINDS | DatePart(name, other).Some? ensures other == kind {
      assert |other| == |kind|;
      assert |"app"| == 3 && |"core"| == 4 && |"substore"| == 8;
    }
  }

  lemma DatedLogHasStamp(name: string, kind: string, year: nat, month: nat, day: nat)
    requires IsDatedLog(name, kind, year, month, day)
    ensures StampOf(name) == Some(DaysFromCivil(year, month, day) * DAY_MILLIS)
  {
    DatedPart(kind, year, month, day);
    OneKind(name, kind);
    Powers();
    ValueOfDigits(year, 4);
    ValueOfDigits(month, 2);
    ValueOfDigits(day, 2);
  }

  /** A log named for a valid date of years 0 to 9999 carries that date's stamp. */
  lemma StampOfLogName(kind: string, d: Date)
    requires kind in KINDS && Valid(d) && 0 <= d.year <= 9999
    ensures StampOf(LogName(kind, d)) == Some(Days(d) * DAY_MILLIS)
  {
    DatedLogHasStamp(LogName(kind, d), kind, d.year, d.month, d.day);
  }

  /** Only dated logs have a stamp, and it is that of their date; so no other file is ever cleaned up. */
  lemma StampExactly(name: string, stamp: int)
    ensures StampOf(name) == Some(stamp) <==>
            exists kind, year: nat, month: nat, day: nat ::
              IsDatedLog(name, kind, year, month, day) && stamp == DaysFromCivil(year, month, day) * DAY_MILLIS
  {
    if StampOf(name) == Some(stamp) {
      var kind, year, month, day := StampIsOfDatedLog(name);
      assert IsDatedLog(name, kind, year, month, day);
    }
    forall kind, year: nat, month: nat, day: nat | IsDatedLog(name, kind, year, month, day)
      ensures StampOf(name) == Some(DaysFromCivil(year, month, day) * DAY_MILLIS)
    {
      DatedLogHasStamp(name, kind, year, month, day);
    }
  }

  /** A file that expires, today's date and the retention given, is a dated log that old. */
  lemma OnlyOldLogsExpire(name: string, today: Date, retentionDays: int)
    ensures Expired(name, today, retentionDays) <==>
            exists kind, year: nat, month: nat, day: nat ::
              IsDatedLog(name, kind, year, month, day) && Days(today) - DaysFromCivil(year, month, day) >= retentionDays
  {
    if Expired(name, today, retentionDays) {
      var kind, year, month, day := StampIsOfDatedLog(name);
      assert IsDatedLog(name, kind, year, month, day);
      InDays(Days(today), DaysFromCivil(year, month, day), retentionDays);
    }
    forall kind, year: nat, month: nat, day: nat | IsDatedLog(name, kind, year, month, day)
      ensures Expired(name, today, retentionDays) <==> Days(today) - DaysFromCivil(year, month, day) >= retentionDays
    {
      DatedLogHasStamp(name, kind, year, month, day);
      InDays(Days(today), DaysFromCivil(year, month, day), retentionDays);
    }
  }

  lemma InDays(now: int, date: int, days: int)
    ensures now * DAY_MILLIS - date * DAY_MILLIS >= days * DAY_MILLIS <==> now - date >= days
  {
    assert now * DAY_MILLIS - date * DAY_MILLIS == (now - date) * DAY_MILLIS;
  }

  /** Cleanup removes a dated log exactly when `retentionDays` days have gone by since its date. */
  lemma RetentionIsExact(kind: string, d: Date, today: Date, retentionDays: nat)
    requires kind in KINDS && Valid(d) && 0 <= d.year <= 9999 && Valid(today)
    ensures Expired(LogName(kind, d), today, retentionDays) <==> !Before(today, Advance(d, retentionDays))
  {
    StampOfLogName(kind, d);
    AdvanceCounts(d, retentionDays);
    OneDatePerDay(today, Advance(d, retentionDays));
    assert Days(today) * DAY_MILLIS - Days(d) * DAY_MILLIS == (Days(today) - Days(d)) * DAY_MILLIS;
  }

  /** A day that the month does not have is read as that many days after the month's first. */
  lemma OverlongDayRollsOver(year: int, month: nat, day: nat)
    requires 1 <= month <= 12 && day >= 1
    ensures DaysFromCivil(year, month, day) == Days(Advance(Date(year, month, 1), day - 1))
  {
    ClosedForm(year, month, day);
    ClosedForm(year, month, 1);
    AdvanceCounts(Date(year, month, 1), day - 1);
  }
}
