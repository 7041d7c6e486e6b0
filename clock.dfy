/** Wall-clock values shared by both versions of RTCModule: the chip's
    reading, the six fields setNowFromString reads at fixed offsets of
    "YYYY-MM-DD HH:MM:SS", and the zero-padded text nowString prints. */
module Clock {
  import opened Text

  /** A reading of the DS3231 chip (RTClib's DateTime getters). */
  datatype DateTime = DateTime(year: nat, month: nat, day: nat, hour: nat, minute: nat, second: nat)

  /** The neutral time both firmwares fall back to. */
  const Epoch := DateTime(2000, 1, 1, 0, 0, 0)

  /** The six numbers setNowFromString hands to DateTime(y, m, d, hh, mm, ss);
      atol can make them negative. */
  datatype Fields = Fields(year: int, month: int, day: int, hour: int, minute: int, second: int)

  const StampLength := 19

  /** `s.substring(a, b).toInt()` at the offsets [0,4), [5,7), [8,10),
      [11,13), [14,16), [17,19). */
  function ReadFields(s: string): Fields
    requires |s| >= StampLength
  {
    Fields(AtoL(s[0..4]), AtoL(s[5..7]), AtoL(s[8..10]),
           AtoL(s[11..13]), AtoL(s[14..16]), AtoL(s[17..19]))
  }

  function FieldsOf(t: DateTime): Fields {
    Fields(t.year, t.month, t.day, t.hour, t.minute, t.second)
  }

  /** snprintf("%04d-%02d-%02d %02d:%02d:%02d", ...) of a reading. */
  function Format(t: DateTime): string {
    PadNat(t.year, 4) + "-" + PadNat(t.month, 2) + "-" + PadNat(t.day, 2) + " " +
    PadNat(t.hour, 2) + ":" + PadNat(t.minute, 2) + ":" + PadNat(t.second, 2)
  }

  /** A reading every field of which fits its printed width. */
  predicate FitsStamp(t: DateTime) {
    t.year < 10000 && t.month < 100 && t.day < 100 && t.hour < 100 && t.minute < 100 && t.second < 100
  }

  lemma Pow10Values()
    ensures Pow10(2) == 100 && Pow10(4) == 10000
  {
    assert Pow10(1) == 10;
    assert Pow10(3) == 1000;
  }

  /** A field printed at width w and read back with atol gives the number. */
  lemma FieldRoundTrip(n: nat, w: nat)
    requires w == 2 || w == 4
    requires n < Pow10(w)
    ensures |PadNat(n, w)| == w && AtoL(PadNat(n, w)) == n
  {
    PadNatCorrect(n, w);
    Pow10Values();
    AtoLOfDigits(PadNat(n, w));
  }

  /** Where the six fields sit in a stamp built from pieces of the printed
      widths. */
  lemma StampSlices(y: string, mo: string, d: string, h: string, mi: string, se: string)
    requires |y| == 4 && |mo| == 2 && |d| == 2 && |h| == 2 && |mi| == 2 && |se| == 2
    ensures var s := y + "-" + mo + "-" + d + " " + h + ":" + mi + ":" + se;
      |s| == StampLength && s[0..4] == y && s[5..7] == mo && s[8..10] == d &&
      s[11..13] == h && s[14..16] == mi && s[17..19] == se
  {
  }

  /** The printed stamp is 19 characters long, and reading the six fields at
      their fixed offsets gives back the reading. */
  lemma {:induction false} FormatReadFields(t: DateTime)
    requires FitsStamp(t)
    ensures |Format(t)| == StampLength
    ensures ReadFields(Format(t)) == FieldsOf(t)
  {
    Pow10Values();
    FieldRoundTrip(t.year, 4);
    FieldRoundTrip(t.month, 2);
    FieldRoundTrip(t.day, 2);
    FieldRoundTrip(t.hour, 2);
    FieldRoundTrip(t.minute, 2);
    FieldRoundTrip(t.second, 2);
    StampSlices(PadNat(t.year, 4), PadNat(t.month, 2), PadNat(t.day, 2),
                PadNat(t.hour, 2), PadNat(t.minute, 2), PadNat(t.second, 2));
  }

  /** The fall-back stamp is the printed form of the fall-back time. */
  lemma EpochStamp()
    ensures Format(Epoch) == "2000-01-01 00:00:00"
  {
    var y := PadNat(2000, 4);
    assert y == "2000" by {
      assert Digits(2) == "2";
      assert Digits(20) == "20";
      assert Digits(200) == "200";
      assert Digits(2000) == "2000";
    }
    var one := PadNat(1, 2);
    assert one == "01" by {
      assert Digits(1) == "1";
      assert Zeros(1) == "0";
    }
    var zero := PadNat(0, 2);
    assert zero == "00" by {
      assert Digits(0) == "0";
      assert Zeros(1) == "0";
    }
  }
}
