/** RTCModule of the live firmware: the OK / NEED_SET status machine, the
    fall-backs of now() and nowString() while the clock is not trusted, and
    the fixed-offset "YYYY-MM-DD HH:MM:SS" parser behind setNowFromString.
    The DS3231 chip itself (RTClib) is an input record. */
module Rtc {
  import opened Text
  import opened Clock

  datatype RtcStatus = RtcOk | RtcNeedSet

  /** What RTClib reports about the chip: whether rtc.begin() finds it,
      rtc.lostPower(), and rtc.now(). */
  datatype Chip = Chip(found: bool, lostPower: bool, time: DateTime)

  const FallbackStamp := "2000-01-01 00:00:00"

  /** The range check of setNowFromString; hour, minute and second are not
      checked. */
  predicate DateInRange(f: Fields) {
    f.year >= 2020 && 1 <= f.month <= 12 && 1 <= f.day <= 31
  }

  /** The fields setNowFromString hands to rtc.adjust, or None where it
      returns false. */
  function ParseSetTime(s: string): (r: Option<Fields>)
    ensures r.Some? ==> |s| >= StampLength && r.value.year >= 2020
    ensures r.Some? ==> 1 <= r.value.month <= 12 && 1 <= r.value.day <= 31
  {
    if |s| < StampLength then None
    else
      var f := ReadFields(s);
      if DateInRange(f) then Some(f) else None
  }

  /** now() for a given status: the neutral time, without reading the
      chip, unless the status is OK. */
  function NowOf(status: RtcStatus, chip: Chip): DateTime {
    if status != RtcOk then Epoch else chip.time
  }

  /** lostPowerFlag() for a given status. */
  function LostPowerOf(status: RtcStatus, chip: Chip): bool {
    if status != RtcOk then true else chip.lostPower
  }

  /** nowString() for a given status. */
  function NowStringOf(status: RtcStatus, chip: Chip): string {
    if status != RtcOk || chip.lostPower then FallbackStamp else Format(chip.time)
  }

  class RTCModule {
    var status: RtcStatus

    constructor()
      ensures status == RtcNeedSet
    {
      status := RtcNeedSet;
    }

    /** begin(): true iff the chip answers; the status is OK only if it also
        kept its time. */
    method Begin(chip: Chip) returns (ok: bool)
      modifies this
      ensures ok == chip.found
      ensures status == (if chip.found && !chip.lostPower then RtcOk else RtcNeedSet)
    {
      if !chip.found {
        status := RtcNeedSet;
        return false;
      }
      if chip.lostPower {
        status := RtcNeedSet;
      } else {
        status := RtcOk;
      }
      return true;
    }

    function Status(): RtcStatus
      reads this
    {
      status
    }

    /** now(): the neutral time, without reading the chip, unless OK. */
    function Now(chip: Chip): (t: DateTime)
      reads this
      ensures status != RtcOk ==> t == Epoch
      ensures status == RtcOk ==> t == chip.time
    {
      NowOf(status, chip)
    }

    /** lostPowerFlag(): true whenever the status is not OK. */
    function LostPowerFlag(chip: Chip): (lost: bool)
      reads this
      ensures lost <==> status != RtcOk || chip.lostPower
    {
      LostPowerOf(status, chip)
    }

    /** nowString(): the neutral stamp while the clock is untrusted,
        otherwise the zero-padded reading. */
    function NowString(chip: Chip): (s: string)
      reads this
      ensures LostPowerFlag(chip) ==> s == FallbackStamp
      ensures !LostPowerFlag(chip) ==> s == Format(chip.time)
    {
      NowStringOf(status, chip)
    }

    /** setNowFromString(s): on acceptance the chip is adjusted to the parsed
        fields (returned as `adjusted`) and the status becomes OK; a rejected
        string leaves the status as it was. */
    method SetNowFromString(s: string) returns (ok: bool, adjusted: Option<Fields>)
      modifies this
      ensures adjusted == ParseSetTime(s)
      ensures ok == adjusted.Some?
      ensures status == (if ok then RtcOk else old(status))
    {
      if |s| < StampLength {
        return false, None;
      }
      var f := ReadFields(s);
      if f.year < 2020 || f.month < 1 || f.month > 12 || f.day < 1 || f.day > 31 {
        return false, None;
      }
      status := RtcOk;
      return true, Some(f);
    }
  }

  /** Strings shorter than a full stamp are always rejected. */
  lemma RejectsShort(s: string)
    requires |s| < StampLength
    ensures ParseSetTime(s) == None
  {
  }

  /** A stamp in nowString's format whose date passes the range check parses
      back to the same six fields. */
  lemma ParseFormatRoundTrip(t: DateTime)
    requires FitsStamp(t) && t.year >= 2020 && 1 <= t.month <= 12 && 1 <= t.day <= 31
    ensures ParseSetTime(Format(t)) == Some(FieldsOf(t))
  {
    FormatReadFields(t);
  }

  /** A well-formed stamp is rejected iff its date is out of range: year
      before 2020, month outside 1..12 or day outside 1..31. */
  lemma ParseFormatRejects(t: DateTime)
    requires FitsStamp(t)
    ensures ParseSetTime(Format(t)) == None <==>
      t.year < 2020 || t.month < 1 || t.month > 12 || t.day < 1 || t.day > 31
  {
    FormatReadFields(t);
  }

  /** The neutral stamp nowString reports cannot be fed back: its year is
      before 2020. */
  lemma FallbackRejected()
    ensures ParseSetTime(FallbackStamp) == None
  {
    EpochStamp();
    ParseFormatRejects(Epoch);
  }

  /** Hour, minute and second are passed on unchecked. */
  lemma TimeOfDayUnchecked(t: DateTime)
    requires FitsStamp(t) && t.year >= 2020 && 1 <= t.month <= 12 && 1 <= t.day <= 31
    requires t.hour >= 24 || t.minute >= 60 || t.second >= 60
    ensures ParseSetTime(Format(t)).Some?
  {
    ParseFormatRoundTrip(t);
  }

  /** Whenever nowString does not fall back because of lost power, it is
      the printed form of now(); in particular both agree on the neutral
      time while the status is not OK. */
  lemma NowStringIsFormatOfNow(m: RTCModule, chip: Chip)
    requires !chip.lostPower || m.status != RtcOk
    ensures m.NowString(chip) == Format(m.Now(chip))
  {
    EpochStamp();
  }

  /** What nowString prints with a trusted clock is accepted by
      setNowFromString and restores the same reading. */
  lemma NowStringRoundTrip(m: RTCModule, chip: Chip)
    requires m.status == RtcOk && !chip.lostPower
    requires FitsStamp(chip.time) && chip.time.year >= 2020
    requires 1 <= chip.time.month <= 12 && 1 <= chip.time.day <= 31
    ensures ParseSetTime(m.NowString(chip)) == Some(FieldsOf(chip.time))
  {
    ParseFormatRoundTrip(chip.time);
  }
}
