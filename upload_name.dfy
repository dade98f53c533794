/**
 * The name the current backup builder gives to the archive it uploads to
 * Google Drive: the time of the build as `%Y%m%d%H%M%S`, an underscore,
 * the job UUID and `.tgz`. Because every field is zero-padded to a fixed
 * width, names sort as their times do, which is what lets the setup task
 * take the greatest name as the latest backup.
 */
module UploadName {
  import opened Wrappers
  import opened SetupTask

  /** `datetime.now()`, down to the second. */
  datatype Clock = Clock(year: nat, month: nat, day: nat, hour: nat, minute: nat, second: nat)

  /** A clock `datetime` can hold whose year `%Y` writes with four digits. */
  predicate ValidClock(c: Clock) {
    1000 <= c.year <= 9999 && 1 <= c.month <= 12 && 1 <= c.day <= 31
    && c.hour < 24 && c.minute < 60 && c.second < 60
  }

  /** Chronological order: field by field, the year first. */
  predicate ClockLe(a: Clock, b: Clock) {
    a.year < b.year || (a.year == b.year &&
    (a.month < b.month || (a.month == b.month &&
    (a.day < b.day || (a.day == b.day &&
    (a.hour < b.hour || (a.hour == b.hour &&
    (a.minute < b.minute || (a.minute == b.minute && a.second <= b.second)))))))))
  }

  function Pow10(k: nat): (p: nat)
    ensures p > 0
  {
    if k == 0 then 1 else 10 * Pow10(k - 1)
  }

  function DigitChar(d: nat): char
    requires d < 10
  {
    (48 + d) as char
  }

  /** `n` written with exactly `k` decimal digits, zero-padded on the left. */
  function Digits(n: nat, k: nat): (r: string)
    requires n < Pow10(k)
    ensures |r| == k
  {
    if k == 0 then [] else Digits(n / 10, k - 1) + [DigitChar(n % 10)]
  }

  /** Texts with a first character: that character decides unless it is equal. */
  lemma NameLeCons(a: string, b: string)
    requires |a| > 0 && |b| > 0
    ensures NameLe(a, b) <==> a[0] < b[0] || (a[0] == b[0] && NameLe(a[1..], b[1..]))
  {
  }

  lemma DigitCharOrder(x: nat, y: nat)
    requires x < 10 && y < 10
    ensures DigitChar(x) < DigitChar(y) <==> x < y
    ensures DigitChar(x) == DigitChar(y) <==> x == y
  {
  }

  /** Only zero fits in no digits, and it is written as nothing. */
  lemma ZeroWidth(m: nat)
    requires m < Pow10(0)
    ensures m == 0 && Digits(m, 0) == []
  {
    assert Pow10(0) == 1;
  }

  /** Zero-padded numbers of one width sort as the numbers do. */
  lemma {:induction false} DigitsOrder(m: nat, n: nat, k: nat)
    requires m < Pow10(k) && n < Pow10(k)
    ensures NameLe(Digits(m, k), Digits(n, k)) <==> m <= n
    decreases k
  {
    if k == 0 {
      ZeroWidth(m);
      ZeroWidth(n);
    } else {
      var a, b := Digits(m / 10, k - 1), Digits(n / 10, k - 1);
      DigitsOrder(m / 10, n / 10, k - 1);
      DigitsOrder(n / 10, m / 10, k - 1);
      LastDigitOrder(m, n, a, b);
    }
  }

  /**
   * Numbers written as their tens in front of their last digit, where the
   * texts of the tens sort as the tens do, sort as the numbers do.
   */
  lemma LastDigitOrder(m: nat, n: nat, a: string, b: string)
    requires |a| == |b|
    requires NameLe(a, b) <==> m / 10 <= n / 10
    requires NameLe(b, a) <==> n / 10 <= m / 10
    requires m / 10 == n / 10 ==> a == b
    ensures NameLe(a + [DigitChar(m % 10)], b + [DigitChar(n % 10)]) <==> m <= n
  {
    var x, y := [DigitChar(m % 10)], [DigitChar(n % 10)];
    NameLeConcat(a, b, x, y);
    NameLeCons(x, y);
    DigitCharOrder(m % 10, n % 10);
    assert x[1..] == [] && y[1..] == [];
  }

  /** Two zero-padded numbers of one width are the same text only when they are the same number. */
  lemma DigitsInjective(m: nat, n: nat, k: nat)
    requires m < Pow10(k) && n < Pow10(k)
    requires Digits(m, k) == Digits(n, k)
    ensures m == n
  {
    NameLeRefl(Digits(m, k));
    DigitsOrder(m, n, k);
    DigitsOrder(n, m, k);
  }

  /** Comparing texts whose first parts have one length: the first parts decide unless they are equal. */
  lemma {:induction false} NameLeConcat(a: string, b: string, x: string, y: string)
    requires |a| == |b|
    ensures NameLe(a + x, b + y) <==> (a != b && NameLe(a, b)) || (a == b && NameLe(x, y))
    decreases |a|
  {
    if |a| == 0 {
      assert a + x == x && b + y == y;
    } else {
      assert (a + x)[0] == a[0] && (a + x)[1..] == a[1..] + x;
      assert (b + y)[0] == b[0] && (b + y)[1..] == b[1..] + y;
      NameLeCons(a + x, b + y);
      NameLeCons(a, b);
      NameLeConcat(a[1..], b[1..], x, y);
      if a[0] == b[0] {
        assert a == b <==> a[1..] == b[1..] by {
          if a[1..] == b[1..] {
            assert a == [a[0]] + a[1..] && b == [b[0]] + b[1..];
          }
        }
      }
    }
  }

  /** `strftime('%Y%m%d%H%M%S')` */
  function Stamp(c: Clock): (r: string)
    requires ValidClock(c)
    ensures |r| == 14
  {
    Digits(c.year, 4) + Digits(c.month, 2) + Digits(c.day, 2)
    + Digits(c.hour, 2) + Digits(c.minute, 2) + Digits(c.second, 2)
  }

  /** One field of a stamp in front of the rest: the field decides unless it is equal. */
  lemma FieldFirst(m: nat, n: nat, k: nat, x: string, y: string)
    requires m < Pow10(k) && n < Pow10(k)
    ensures NameLe(Digits(m, k) + x, Digits(n, k) + y) <==> m < n || (m == n && NameLe(x, y))
  {
    NameLeConcat(Digits(m, k), Digits(n, k), x, y);
    DigitsOrder(m, n, k);
    if Digits(m, k) == Digits(n, k) {
      DigitsInjective(m, n, k);
    }
  }

  /** The time of day of a stamp, `%H%M%S`. */
  function TimeOfDay(c: Clock): string
    requires ValidClock(c)
  {
    Digits(c.hour, 2) + (Digits(c.minute, 2) + Digits(c.second, 2))
  }

  /** Times of day sort as they are written. */
  lemma TimeOfDayOrder(a: Clock, b: Clock)
    requires ValidClock(a) && ValidClock(b)
    ensures NameLe(TimeOfDay(a), TimeOfDay(b)) <==>
      a.hour < b.hour || (a.hour == b.hour && (a.minute < b.minute || (a.minute == b.minute && a.second <= b.second)))
  {
    DigitsOrder(a.second, b.second, 2);
    FieldFirst(a.minute, b.minute, 2, Digits(a.second, 2), Digits(b.second, 2));
    FieldFirst(a.hour, b.hour, 2, Digits(a.minute, 2) + Digits(a.second, 2), Digits(b.minute, 2) + Digits(b.second, 2));
  }

  /** Stamps sort as the times they write. */
  lemma StampOrder(a: Clock, b: Clock)
    requires ValidClock(a) && ValidClock(b)
    ensures NameLe(Stamp(a), Stamp(b)) <==> ClockLe(a, b)
  {
    TimeOfDayOrder(a, b);
    var s2a, s2b := Digits(a.day, 2) + TimeOfDay(a), Digits(b.day, 2) + TimeOfDay(b);
    FieldFirst(a.day, b.day, 2, TimeOfDay(a), TimeOfDay(b));
    var s1a, s1b := Digits(a.month, 2) + s2a, Digits(b.month, 2) + s2b;
    FieldFirst(a.month, b.month, 2, s2a, s2b);
    FieldFirst(a.year, b.year, 4, s1a, s1b);
    StampFields(a);
    StampFields(b);
  }

  /** A stamp is its year in front of its month in front of its day in front of its time of day. */
  lemma StampFields(c: Clock)
    requires ValidClock(c)
    ensures Stamp(c) == Digits(c.year, 4) + (Digits(c.month, 2) + (Digits(c.day, 2) + TimeOfDay(c)))
  {
  }

  /** The upload name: the stamp, `_`, the job UUID, `.tgz`. */
  function Name(c: Clock, jobUuid: string): (r: string)
    requires ValidClock(c)
    ensures |r| == 19 + |jobUuid|
    ensures r[..14] == Stamp(c) && r[14] == '_' && r[15..|r| - 4] == jobUuid && r[|r| - 4..] == ".tgz"
  {
    Stamp(c) + "_" + jobUuid + ".tgz"
  }

  /**
   * A backup built at a strictly later second has a strictly greater
   * name, whatever the two job UUIDs.
   */
  lemma LaterNameGreater(a: Clock, b: Clock, ua: string, ub: string)
    requires ValidClock(a) && ValidClock(b)
    requires ClockLe(a, b) && !ClockLe(b, a)
    ensures NameLe(Name(a, ua), Name(b, ub)) && Name(a, ua) != Name(b, ub)
  {
    assert Name(a, ua) == Stamp(a) + ("_" + ua + ".tgz");
    assert Name(b, ub) == Stamp(b) + ("_" + ub + ".tgz");
    StampOrder(a, b);
    StampOrder(b, a);
    NameLeConcat(Stamp(a), Stamp(b), "_" + ua + ".tgz", "_" + ub + ".tgz");
  }

  /**
   * With the uploads of two backups on Google Drive, in either order, a
   * setup without an archive name downloads the later one.
   */
  lemma SetupTakesLaterBackup(a: Clock, b: Clock, ua: string, ub: string, ida: string, idb: string,
                              aFirst: bool, ids: map<string, string>, contents: map<string, Disk.Archive>)
    requires ValidClock(a) && ValidClock(b)
    requires ClockLe(a, b) && !ClockLe(b, a)
    ensures var older, newer := DriveArchive(Name(a, ua), ida), DriveArchive(Name(b, ub), idb);
      var listing := if aFirst then [older, newer] else [newer, older];
      Choose(Drive(listing, ids, contents), None) == Use(idb)
  {
    var older, newer := DriveArchive(Name(a, ua), ida), DriveArchive(Name(b, ub), idb);
    var listing := if aFirst then [older, newer] else [newer, older];
    LaterNameGreater(a, b, ua, ub);
    NameLeRefl(newer.name);
    var m := if aFirst then 1 else 0;
    assert listing[m] == newer;
    ChooseLatest(Drive(listing, ids, contents), m);
  }
}
