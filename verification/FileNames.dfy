/** File names of a collection directory (`storage::new_segment_name`, `parse_seg_seq`, the archive name). */
module FileNames {
  import opened Wrappers

  const MANIFEST_FILE := "manifest.json"
  const WAL_FILE := "wal.jsonl"
  const SEG_PREFIX := "seg-"
  const SEG_SUFFIX := ".jsonl"
  const TMP_SUFFIX := ".tmp"
  const ARCHIVE_PREFIX := "wal-a"
  const ARCHIVE_SUFFIX := ".archived"

  predicate IsDigit(c: char) {
    '0' <= c <= '9'
  }

  function Digit(d: nat): (c: char)
    requires d < 10
    ensures IsDigit(c) && c as int - '0' as int == d
  {
    ('0' as int + d) as char
  }

  function Decimal(n: nat): (s: string)
    ensures |s| > 0 && forall c :: c in s ==> IsDigit(c)
  {
    if n < 10 then [Digit(n)] else Decimal(n / 10) + [Digit(n % 10)]
  }

  /** Zero padding to at least six digits, as `{:06}` prints. */
  function Pad(s: string, width: nat): (r: string)
    requires forall c :: c in s ==> IsDigit(c)
    ensures |r| >= |s| && forall c :: c in r ==> IsDigit(c)
    decreases width - |s|
  {
    if |s| >= width then s else Pad("0" + s, width)
  }

  function Value(s: string): Option<nat> {
    if s == "" then Some(0)
    else
      var last := s[|s| - 1];
      match Value(s[..|s| - 1])
      case Some(v) => if IsDigit(last) then Some(10 * v + (last as int - '0' as int)) else None
      case None => None
  }

  /** Parsing an unsigned number: not empty, one leading plus sign allowed. */
  function ParseNumber(s: string): Option<nat> {
    if s == "" then None
    else if s[0] == '+' then (if |s| == 1 then None else Value(s[1..]))
    else Value(s)
  }

  function NewSegmentName(seqNo: nat): string {
    SEG_PREFIX + Pad(Decimal(seqNo), 6) + SEG_SUFFIX
  }

  predicate IsSegmentName(name: string) {
    && |name| >= |SEG_PREFIX|
    && name[..|SEG_PREFIX|] == SEG_PREFIX
    && |name| >= |SEG_SUFFIX|
    && name[|name| - |SEG_SUFFIX|..] == SEG_SUFFIX
  }

  /** Strips the prefix, then the suffix from what is left, then parses. */
  function ParseSegSeq(name: string): Option<nat> {
    if |name| < |SEG_PREFIX| || name[..|SEG_PREFIX|] != SEG_PREFIX then None
    else
      var rest := name[|SEG_PREFIX|..];
      if |rest| < |SEG_SUFFIX| || rest[|rest| - |SEG_SUFFIX|..] != SEG_SUFFIX then None
      else ParseNumber(rest[..|rest| - |SEG_SUFFIX|])
  }

  function SignedDecimal(n: int): string {
    if n < 0 then "-" + Decimal(-n) else Decimal(n)
  }

  function ArchiveName(seqNo: nat, now: int): string {
    ARCHIVE_PREFIX + Pad(Decimal(seqNo), 6) + ("-" + SignedDecimal(now) + ARCHIVE_SUFFIX)
  }

  lemma {:induction false} DecimalValue(n: nat)
    ensures Value(Decimal(n)) == Some(n)
  {
    var s := Decimal(n);
    if n < 10 {
      assert s[..|s| - 1] == "";
    } else {
      DecimalValue(n / 10);
      assert s[..|s| - 1] == Decimal(n / 10);
    }
  }

  lemma {:induction false} LeadingZero(s: string)
    ensures Value("0" + s) == Value(s)
  {
    var z := "0" + s;
    if s == "" {
      assert z[..|z| - 1] == "";
    } else {
      LeadingZero(s[..|s| - 1]);
      assert z[..|z| - 1] == "0" + s[..|s| - 1];
    }
  }

  lemma {:induction false} PadValue(s: string, width: nat)
    requires forall c :: c in s ==> IsDigit(c)
    ensures Value(Pad(s, width)) == Value(s)
    decreases width - |s|
  {
    if |s| < width {
      LeadingZero(s);
      PadValue("0" + s, width);
    }
  }

  /** Parsing a generated segment name gives back its sequence number, so names never collide. */
  lemma SegmentNameRoundTrip(seqNo: nat)
    ensures IsSegmentName(NewSegmentName(seqNo))
    ensures ParseSegSeq(NewSegmentName(seqNo)) == Some(seqNo)
  {
    var digits := Pad(Decimal(seqNo), 6);
    var name := NewSegmentName(seqNo);
    DecimalValue(seqNo);
    PadValue(Decimal(seqNo), 6);
    assert name[..|SEG_PREFIX|] == SEG_PREFIX;
    var rest := name[|SEG_PREFIX|..];
    assert rest == digits + SEG_SUFFIX;
    assert rest[|rest| - |SEG_SUFFIX|..] == SEG_SUFFIX;
    assert name[|name| - |SEG_SUFFIX|..] == SEG_SUFFIX;
    assert rest[..|rest| - |SEG_SUFFIX|] == digits;
    assert digits[0] in digits;
  }

  /** The digits a string starts with. */
  function LeadingDigits(s: string): string {
    if s == "" || !IsDigit(s[0]) then "" else [s[0]] + LeadingDigits(s[1..])
  }

  lemma {:induction false} LeadingDigitsStop(digits: string, rest: string)
    requires forall c :: c in digits ==> IsDigit(c)
    requires rest != "" && !IsDigit(rest[0])
    ensures LeadingDigits(digits + rest) == digits
  {
    var s := digits + rest;
    if digits == "" {
      assert s == rest;
    } else {
      assert s[1..] == digits[1..] + rest;
      assert digits[0] in digits;
      LeadingDigitsStop(digits[1..], rest);
    }
  }

  /** The digits between the prefix and the dash of an archive name. */
  lemma ArchiveDigits(k: nat, t: int)
    ensures var name := ArchiveName(k, t);
            |name| >= |ARCHIVE_PREFIX| && LeadingDigits(name[|ARCHIVE_PREFIX|..]) == Pad(Decimal(k), 6)
  {
    var digits := Pad(Decimal(k), 6);
    var rest := "-" + SignedDecimal(t) + ARCHIVE_SUFFIX;
    assert ArchiveName(k, t)[|ARCHIVE_PREFIX|..] == digits + rest;
    assert rest[0] == '-';
    LeadingDigitsStop(digits, rest);
  }

  lemma PaddedValue(k: nat)
    ensures Value(Pad(Decimal(k), 6)) == Some(k)
  {
    PadValue(Decimal(k), 6);
    DecimalValue(k);
  }

  /** Archives of different checkpoints have different names, whatever the clock said. */
  lemma ArchiveNamesDiffer(k1: nat, t1: int, k2: nat, t2: int)
    requires ArchiveName(k1, t1) == ArchiveName(k2, t2)
    ensures k1 == k2
  {
    ArchiveDigits(k1, t1);
    ArchiveDigits(k2, t2);
    PaddedValue(k1);
    PaddedValue(k2);
  }

  // ----- The kinds of file are told apart by their first and last character -----

  predicate Ends(name: string, first: char, last: char) {
    |name| > 0 && name[0] == first && name[|name| - 1] == last
  }

  predicate IsTmpName(name: string) {
    |name| > 0 && name[|name| - 1] == 'p'
  }

  lemma NameShapes(seqNo: nat, now: int, name: string)
    ensures Ends(NewSegmentName(seqNo), 's', 'l')
    ensures Ends(ArchiveName(seqNo, now), 'w', 'd')
    ensures IsTmpName(name + TMP_SUFFIX)
    ensures Ends(MANIFEST_FILE, 'm', 'n') && Ends(WAL_FILE, 'w', 'l')
    ensures IsSegmentName(name) ==> Ends(name, 's', 'l')
  {
    if IsSegmentName(name) {
      assert name[0] == name[..|SEG_PREFIX|][0];
      assert name[|name| - 1] == name[|name| - |SEG_SUFFIX|..][|SEG_SUFFIX| - 1];
    }
  }

  /** The names a checkpoint writes are all different. */
  lemma NamesApart(seqNo: nat, now: int)
    ensures var seg := NewSegmentName(seqNo);
            var archive := ArchiveName(seqNo, now);
            && seg != MANIFEST_FILE && seg != WAL_FILE && seg != MANIFEST_FILE + TMP_SUFFIX && seg != seg + TMP_SUFFIX
            && archive != MANIFEST_FILE && archive != WAL_FILE && archive != seg
            && archive != MANIFEST_FILE + TMP_SUFFIX && archive != seg + TMP_SUFFIX
            && MANIFEST_FILE != WAL_FILE && MANIFEST_FILE != MANIFEST_FILE + TMP_SUFFIX &&
               WAL_FILE != MANIFEST_FILE + TMP_SUFFIX
            && MANIFEST_FILE != seg + TMP_SUFFIX && WAL_FILE != seg + TMP_SUFFIX
  {
    NameShapes(seqNo, now, MANIFEST_FILE);
    NameShapes(seqNo, now, NewSegmentName(seqNo));
  }
}
