/** Character and string helpers the firmware uses through the C library and
    Arduino's String: isspace/tolower/toupper in the C locale, the command
    normaliser and pretty-printer of the BLE handler, the 20-byte notification
    chunking, atol (String::toInt), std::stoul and the zero-padded decimal
    printing of snprintf("%0Nd"). */
module Text {

  datatype Option<T> = None | Some(value: T)

  /** std::isspace in the C locale. */
  predicate IsSpace(c: char) {
    c == ' ' || c == '\t' || c == '\n' || c == '\U{000B}' || c == '\U{000C}' || c == '\r'
  }

  predicate IsUpper(c: char) { 'A' <= c <= 'Z' }

  predicate IsLower(c: char) { 'a' <= c <= 'z' }

  predicate IsDigit(c: char) { '0' <= c <= '9' }

  predicate AllDigits(s: string) { forall i :: 0 <= i < |s| ==> IsDigit(s[i]) }

  /** std::tolower / std::toupper in the C locale: ASCII letters only. */
  function ToLower(c: char): char {
    if IsUpper(c) then (c as int + 32) as char else c
  }

  function ToUpper(c: char): char {
    if IsLower(c) then (c as int - 32) as char else c
  }

  function LowerAll(s: string): string {
    seq(|s|, i requires 0 <= i < |s| => ToLower(s[i]))
  }

  function StartsWith(s: string, prefix: string): bool {
    |prefix| <= |s| && s[..|prefix|] == prefix
  }

  // ---------------------------------------------------------------------
  // normalizeCmd (src/main.cpp:96-103, backup/src/main.cpp:162-169)

  /** Drop leading white space (the first `erase` loop). */
  function TrimLeft(s: string): string {
    if s != [] && IsSpace(s[0]) then TrimLeft(s[1..]) else s
  }

  /** Drop trailing white space (the `pop_back` loop). */
  function TrimRight(s: string): string {
    if s != [] && IsSpace(s[|s| - 1]) then TrimRight(s[..|s| - 1]) else s
  }

  /** Arduino's String::trim(): white space dropped at both ends. */
  function Trim(s: string): string {
    TrimRight(TrimLeft(s))
  }

  /** What normalizeCmd returns for `s`. */
  function Normalized(s: string): string {
    LowerAll(TrimRight(TrimLeft(s)))
  }

  /** normalizeCmd: trim white space at both ends, then lower-case. */
  method NormalizeCmd(s: string) returns (r: string)
    ensures r == Normalized(s)
  {
    r := s;
    while r != [] && IsSpace(r[0])
      invariant TrimLeft(r) == TrimLeft(s)
    {
      r := r[1..];
    }
    while r != [] && IsSpace(r[|r| - 1])
      invariant TrimRight(r) == TrimRight(TrimLeft(s))
    {
      r := r[..|r| - 1];
    }
    r := LowerAll(r);
  }

  predicate NoEdgeSpace(s: string) {
    s != [] ==> !IsSpace(s[0]) && !IsSpace(s[|s| - 1])
  }

  predicate NoUpper(s: string) { forall i :: 0 <= i < |s| ==> !IsUpper(s[i]) }

  /** The first erase loop removes the white-space prefix s[..i] and
      stops on a non-space (or at the end). */
  lemma {:induction false} TrimLeftShape(s: string) returns (i: nat)
    ensures i <= |s| && TrimLeft(s) == s[i..]
    ensures forall k :: 0 <= k < i ==> IsSpace(s[k])
    ensures i < |s| ==> !IsSpace(s[i])
  {
    if s != [] && IsSpace(s[0]) {
      var i' := TrimLeftShape(s[1..]);
      i := i' + 1;
      assert s[1..][i'..] == s[i..];
      forall k | 0 <= k < i ensures IsSpace(s[k]) {
        if k > 0 { assert s[k] == s[1..][k - 1]; }
      }
      if i < |s| { assert s[i] == s[1..][i']; }
    } else {
      i := 0;
      assert TrimLeft(s) == s[0..];
    }
  }

  /** The pop_back loop removes the white-space suffix s[j..] and stops on
      a non-space (or at the start). */
  lemma {:induction false} TrimRightShape(s: string) returns (j: nat)
    ensures j <= |s| && TrimRight(s) == s[..j]
    ensures forall k :: j <= k < |s| ==> IsSpace(s[k])
    ensures 0 < j ==> !IsSpace(s[j - 1])
  {
    if s != [] && IsSpace(s[|s| - 1]) {
      var t := s[..|s| - 1];
      j := TrimRightShape(t);
      assert t[..j] == s[..j];
      forall k | j <= k < |s| ensures IsSpace(s[k]) {
        if k < |s| - 1 { assert s[k] == t[k]; }
      }
      if 0 < j { assert s[j - 1] == t[j - 1]; }
    } else {
      j := |s|;
      assert TrimRight(s) == s[..|s|];
    }
  }

  /** s[i..j] is what is left of `s` once the white space at both ends is
      cut off: everything outside it is white space and it neither starts
      nor ends with white space. */
  predicate TrimmedInfix(s: string, i: int, j: int) {
    0 <= i <= j <= |s| &&
    (forall k :: 0 <= k < i ==> IsSpace(s[k])) &&
    (forall k :: j <= k < |s| ==> IsSpace(s[k])) &&
    NoEdgeSpace(s[i..j])
  }

  /** normalizeCmd removes exactly the white space at both ends and
      lower-cases what is left. */
  lemma NormalizedIsTrimmedInfix(s: string)
    ensures exists i, j :: TrimmedInfix(s, i, j) && Normalized(s) == LowerAll(s[i..j])
  {
    var i := TrimLeftShape(s);
    var t := s[i..];
    var j := TrimRightShape(t);
    assert t[..j] == s[i..i + j];
    forall k | i + j <= k < |s| ensures IsSpace(s[k]) {
      assert s[k] == t[k - i];
    }
    if 0 < j {
      assert s[i..i + j][0] == s[i];
      assert s[i..i + j][j - 1] == t[j - 1];
    }
    assert TrimmedInfix(s, i, i + j);
  }

  /** The output of normalizeCmd has no white space at either end and no
      upper-case letter. */
  lemma NormalizedShape(s: string)
    ensures NoEdgeSpace(Normalized(s)) && NoUpper(Normalized(s))
  {
    NormalizedIsTrimmedInfix(s);
    var i, j :| TrimmedInfix(s, i, j) && Normalized(s) == LowerAll(s[i..j]);
    var u := s[i..j];
    if u != [] {
      assert IsSpace(ToLower(u[0])) == IsSpace(u[0]);
      assert IsSpace(ToLower(u[|u| - 1])) == IsSpace(u[|u| - 1]);
    }
  }

  /** normalizeCmd is idempotent. */
  lemma NormalizeIdempotent(s: string)
    ensures Normalized(Normalized(s)) == Normalized(s)
  {
    var t := Normalized(s);
    NormalizedShape(s);
    assert TrimLeft(t) == t;
    assert TrimRight(t) == t;
    assert LowerAll(t) == t;
  }

  // ---------------------------------------------------------------------
  // prettyCmd (src/main.cpp:119-124, backup/src/main.cpp:172-177)

  /** prettyCmd: upper-case, then every '_' becomes ' '. */
  function PrettyCmd(s: string): string {
    seq(|s|, i requires 0 <= i < |s| => if ToUpper(s[i]) == '_' then ' ' else ToUpper(s[i]))
  }

  /** prettyCmd keeps the length, leaves no lower-case letter and no '_',
      puts a blank exactly where the input had '_' or a blank, upper-cases
      every letter and leaves every other character alone. */
  lemma PrettyCmdShape(s: string)
    ensures |PrettyCmd(s)| == |s|
    ensures forall i :: 0 <= i < |s| ==> !IsLower(PrettyCmd(s)[i]) && PrettyCmd(s)[i] != '_'
    ensures forall i :: 0 <= i < |s| ==> (PrettyCmd(s)[i] == ' ' <==> s[i] == '_' || s[i] == ' ')
    ensures forall i :: 0 <= i < |s| && IsLower(s[i]) ==> PrettyCmd(s)[i] == ToUpper(s[i]) && IsUpper(PrettyCmd(s)[i])
    ensures forall i :: 0 <= i < |s| && !IsLower(s[i]) && s[i] != '_' ==> PrettyCmd(s)[i] == s[i]
  {
  }

  // ---------------------------------------------------------------------
  // bleNotifyChunks splitting (src/main.cpp:107-114)

  const ChunkSize := 20

  /** The pieces `s.substr(i, 20)` for i = 0, 20, 40, ... below |s|. */
  function Chunks(s: string): seq<string>
    decreases |s|
  {
    if s == [] then []
    else if |s| <= ChunkSize then [s]
    else [s[..ChunkSize]] + Chunks(s[ChunkSize..])
  }

  function Concat(parts: seq<string>): string {
    if parts == [] then [] else parts[0] + Concat(parts[1..])
  }

  /** The chunks of a message are ceil(n/20) non-empty pieces of at most 20
      characters whose concatenation is the message. */
  lemma {:induction false} ChunksCorrect(s: string)
    ensures Concat(Chunks(s)) == s
    ensures |Chunks(s)| == (|s| + ChunkSize - 1) / ChunkSize
    ensures forall k :: 0 <= k < |Chunks(s)| ==> 0 < |Chunks(s)[k]| <= ChunkSize
    decreases |s|
  {
    if s == [] {
    } else if |s| <= ChunkSize {
      assert Concat([s]) == s + Concat([]);
    } else {
      var rest := s[ChunkSize..];
      ChunksCorrect(rest);
      var c := Chunks(s);
      assert c == [s[..ChunkSize]] + Chunks(rest);
      assert c[1..] == Chunks(rest);
      assert Concat(c) == s[..ChunkSize] + Concat(Chunks(rest));
      assert s[..ChunkSize] + rest == s;
      assert forall k :: 1 <= k < |c| ==> c[k] == Chunks(rest)[k - 1];
    }
  }

  /** The splitting loop of bleNotifyChunks, returning the pieces it would
      notify, in order. */
  method SplitChunks(s: string) returns (parts: seq<string>)
    ensures parts == Chunks(s)
  {
    parts := [];
    var i := 0;
    while i < |s|
      invariant 0 <= i <= |s| + ChunkSize
      invariant i < |s| ==> parts + Chunks(s[i..]) == Chunks(s)
      invariant i >= |s| ==> parts == Chunks(s)
      decreases |s| - i
    {
      var end := if i + ChunkSize <= |s| then i + ChunkSize else |s|;
      var part := s[i..end];
      assert Chunks(s[i..]) == [part] + (if end < |s| then Chunks(s[end..]) else []) by {
        if end < |s| {
          assert s[i..][..ChunkSize] == part;
          assert s[i..][ChunkSize..] == s[end..];
        } else {
          assert s[i..] == part;
        }
      }
      parts := parts + [part];
      i := i + ChunkSize;
      assert i >= |s| <==> end == |s|;
    }
  }

  // ---------------------------------------------------------------------
  // Decimal digits: snprintf("%0Nd"), atol (String::toInt), std::stoul

  function DigitVal(c: char): nat
    requires IsDigit(c)
  {
    c as int - '0' as int
  }

  function DigitChar(d: nat): (c: char)
    requires d < 10
    ensures IsDigit(c) && DigitVal(c) == d
  {
    ('0' as int + d) as char
  }

  /** The number an all-digit string denotes. */
  function Value(ds: string): nat
    requires AllDigits(ds)
  {
    if ds == [] then 0 else Value(ds[..|ds| - 1]) * 10 + DigitVal(ds[|ds| - 1])
  }

  /** The longest prefix of `s` made of digits. */
  function LeadingDigits(s: string): (r: string)
    ensures AllDigits(r) && |r| <= |s| && r == s[..|r|]
  {
    if s != [] && IsDigit(s[0]) then [s[0]] + LeadingDigits(s[1..]) else []
  }

  /** The range of the 32-bit `long` of the ESP32 toolchain. */
  const LongMin := -0x8000_0000
  const LongMax := 0x7FFF_FFFF

  /** What strtol reads before it clamps: skip white space, an optional
      sign, then the leading digits (0 when there are none). */
  function ReadLong(s: string): int {
    var t := TrimLeft(s);
    if t != [] && t[0] == '-' then 0 - Value(LeadingDigits(t[1..]))
    else if t != [] && t[0] == '+' then Value(LeadingDigits(t[1..]))
    else Value(LeadingDigits(t))
  }

  /** atol as Arduino's String::toInt uses it: the number ReadLong reads,
      saturated to the range of a 32-bit long (strtol returns LONG_MAX or
      LONG_MIN on overflow). */
  function AtoL(s: string): (r: int)
    ensures LongMin <= r <= LongMax
    ensures LongMin <= ReadLong(s) <= LongMax ==> r == ReadLong(s)
    ensures ReadLong(s) > LongMax ==> r == LongMax
    ensures ReadLong(s) < LongMin ==> r == LongMin
  {
    var n := ReadLong(s);
    if n > LongMax then LongMax else if n < LongMin then LongMin else n
  }

  const ULongMax := 0xFFFF_FFFF

  /** std::stoul on a 32-bit unsigned long: None where it throws (no digit
      after the optional sign: invalid_argument; magnitude above ULONG_MAX:
      out_of_range), otherwise the value strtoul yields, which for a '-' sign
      is the magnitude negated modulo 2^32. */
  function Stoul(s: string): (r: Option<nat>)
    ensures r.Some? ==> r.value <= ULongMax
  {
    var t := TrimLeft(s);
    var neg := t != [] && t[0] == '-';
    var body := if t != [] && (t[0] == '-' || t[0] == '+') then t[1..] else t;
    var ds := LeadingDigits(body);
    if ds == [] then None
    else if Value(ds) > ULongMax then None
    else if neg then Some((ULongMax + 1 - Value(ds)) % (ULongMax + 1))
    else Some(Value(ds))
  }

  /** stoul of a plain decimal numeral is its value when that fits an
      unsigned long and throws otherwise; with no digit at all it throws. */
  lemma StoulOfDigits(s: string)
    requires AllDigits(s)
    ensures s == [] ==> Stoul(s) == None
    ensures s != [] ==> Stoul(s) == (if Value(s) <= ULongMax then Some(Value(s)) else None)
  {
    if s != [] {
      assert !IsSpace(s[0]) && s[0] != '-' && s[0] != '+';
      assert TrimLeft(s) == s;
      LeadingDigitsOfDigits(s);
    }
  }

  /** Decimal representation of `n` without leading zeros. */
  function Digits(n: nat): (r: string)
    ensures 1 <= |r| && AllDigits(r) && Value(r) == n
  {
    if n < 10 then [DigitChar(n)] else Digits(n / 10) + [DigitChar(n % 10)]
  }

  function Zeros(k: nat): (r: string)
    ensures |r| == k && AllDigits(r)
  {
    seq(k, _ => '0')
  }

  /** snprintf("%0*u", width, n): the digits of n, left-padded with '0' to
      `width` characters. */
  function PadNat(n: nat, width: nat): (r: string)
    ensures AllDigits(r)
  {
    var d := Digits(n);
    if |d| < width then Zeros(width - |d|) + d else d
  }

  function Pow10(k: nat): nat {
    if k == 0 then 1 else 10 * Pow10(k - 1)
  }

  lemma {:induction false} ValueLeadingZeros(k: nat, d: string)
    requires AllDigits(d)
    ensures AllDigits(Zeros(k) + d) && Value(Zeros(k) + d) == Value(d)
    decreases |d|
  {
    var z := Zeros(k);
    if d == [] {
      assert z + d == z;
      ValueOfZeros(k);
    } else {
      var d' := d[..|d| - 1];
      ValueLeadingZeros(k, d');
      assert (z + d)[..|z + d| - 1] == z + d';
    }
  }

  lemma {:induction false} ValueOfZeros(k: nat)
    ensures Value(Zeros(k)) == 0
  {
    if k > 0 {
      ValueOfZeros(k - 1);
      assert Zeros(k)[..k - 1] == Zeros(k - 1);
    }
  }

  lemma {:induction false} DigitsLength(n: nat, k: nat)
    requires 1 <= k && n < Pow10(k)
    ensures |Digits(n)| <= k
  {
    if n >= 10 {
      DigitsLength(n / 10, k - 1);
    }
  }

  /** A zero-padded field of width w holds exactly w characters when the
      number has at most w digits, and reading it back yields the number. */
  lemma PadNatCorrect(n: nat, width: nat)
    requires 1 <= width && n < Pow10(width)
    ensures |PadNat(n, width)| == width
    ensures Value(PadNat(n, width)) == n
  {
    DigitsLength(n, width);
    var d := Digits(n);
    if |d| < width {
      ValueLeadingZeros(width - |d|, d);
    }
  }

  lemma {:induction false} LeadingDigitsOfDigits(s: string)
    requires AllDigits(s)
    ensures LeadingDigits(s) == s
    decreases |s|
  {
    if s != [] {
      LeadingDigitsOfDigits(s[1..]);
    }
  }

  /** atol reads a non-empty all-digit string back as the number it
      denotes, or as LONG_MAX when that number does not fit a long. */
  lemma AtoLOfDigits(s: string)
    requires s != [] && AllDigits(s)
    ensures Value(s) <= LongMax ==> AtoL(s) == Value(s)
    ensures Value(s) > LongMax ==> AtoL(s) == LongMax
  {
    assert !IsSpace(s[0]) && s[0] != '-' && s[0] != '+';
    assert TrimLeft(s) == s;
    LeadingDigitsOfDigits(s);
    assert ReadLong(s) == Value(s);
  }
}
