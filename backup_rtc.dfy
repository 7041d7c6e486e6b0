/** RTCModule of the earlier firmware snapshot: no status machine, nowString
    always prints the chip's reading, and setNowFromString accepts any year
    from 2000 on. */
module BackupRtc {
  import opened Text
  import opened Clock

  /** The range check of the earlier setNowFromString. */
  predicate DateInRange(f: Fields) {
    f.year >= 2000 && 1 <= f.month <= 12 && 1 <= f.day <= 31
  }

  /** The fields handed to rtc.adjust, or None where it returns false. */
  function ParseSetTime(s: string): (r: Option<Fields>)
    ensures r.Some? ==> |s| >= StampLength && r.value.year >= 2000
    ensures r.Some? ==> 1 <= r.value.month <= 12 && 1 <= r.value.day <= 31
  {
    if |s| < StampLength then None
    else
      var f := ReadFields(s);
      if DateInRange(f) then Some(f) else None
  }

  /** What the firmware hands to rtc.adjust: the compile time, or the
      fields of an accepted stamp. */
  datatype Setting = CompileTime | Adjust(f: Fields)

  /** The RTCModule object. The chip's own reading is an input of the
      loop; what the module keeps is the setting it last handed to
      rtc.adjust (None until it hands one). */
  class RTCModule {
    var adjusted: Option<Setting>

    constructor()
      ensures adjusted == None
    {
      adjusted := None;
    }

    /** setNowToCompileTime(): the chip is set to the build's time stamp. */
    method SetNowToCompileTime()
      modifies this
      ensures adjusted == Some(CompileTime)
    {
      adjusted := Some(CompileTime);
    }

    /** setNowFromString: a string shorter than a stamp, or one whose date
        is out of range, is refused and the chip is left alone; otherwise
        the fields read at the fixed offsets go to rtc.adjust. */
    method SetNowFromString(s: string) returns (ok: bool)
      modifies this
      ensures ok <==> ParseSetTime(s).Some?
      ensures ok ==> adjusted == Some(Adjust(ParseSetTime(s).value))
      ensures !ok ==> adjusted == old(adjusted)
    {
      if |s| < StampLength {
        return false;
      }
      var f := ReadFields(s);
      if f.year < 2000 || f.month < 1 || f.month > 12 || f.day < 1 || f.day > 31 {
        return false;
      }
      adjusted := Some(Adjust(f));
      return true;
    }
  }

  /** nowString: the chip's reading printed as "%04u-%02u-%02u %02u:%02u:%02u",
      with no fall-back. */
  function NowString(reading: DateTime): string {
    Format(reading)
  }

  lemma RejectsShort(s: string)
    requires |s| < StampLength
    ensures ParseSetTime(s).None?
  {
  }

  /** Every reading with an in-range date survives nowString followed by
      setNowFromString, the neutral 2000-01-01 00:00:00 included. */
  lemma NowStringRoundTrip(t: DateTime)
    requires FitsStamp(t) && t.year >= 2000 && 1 <= t.month <= 12 && 1 <= t.day <= 31
    ensures ParseSetTime(NowString(t)) == Some(FieldsOf(t))
  {
    FormatReadFields(t);
  }

  /** A stamp is rejected iff its date is out of range; hour, minute and
      second play no part. */
  lemma RejectsIff(t: DateTime)
    requires FitsStamp(t)
    ensures ParseSetTime(NowString(t)).None? <==>
      t.year < 2000 || t.month < 1 || t.month > 12 || t.day < 1 || t.day > 31
  {
    FormatReadFields(t);
  }

  /** Unlike the live firmware, the earlier one accepts the neutral stamp. */
  lemma AcceptsEpochStamp()
    ensures ParseSetTime("2000-01-01 00:00:00") == Some(Fields(2000, 1, 1, 0, 0, 0))
  {
    EpochStamp();
    NowStringRoundTrip(Epoch);
  }
}
