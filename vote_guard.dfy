/** The anti-repeat guard: `markAsVoted` stores the submission time under one
    localStorage key, and `checkIfAlreadyVoted` blocks the rating page for 30
    days after it. The stored item is the raw string (or absent); the day
    division of the source is replaced by the equivalent comparison in whole
    milliseconds. */
module VoteGuard {
  import opened Wrappers
  import opened JsNumbers

  const MsPerDay: int := 1000 * 60 * 60 * 24

  /** Number of days a vote blocks the page. */
  const GuardDays: int := 30

  /** 30 days in milliseconds: 2 592 000 000. */
  const GuardWindowMs: int := GuardDays * MsPerDay

  /** The item `markAsVoted` writes for a submission at `now`:
      `timestamp.toString()`. */
  function VoteRecord(now: TimeValue): (item: string)
    ensures ParseInt(item) == Some(now as int)
  {
    ParseIntNumberToString(now);
    NumberToString(now)
  }

  /** The date `checkIfAlreadyVoted` reconstructs from the stored item: an
      absent or empty item is skipped by `if (hasVoted)`, and otherwise
      `new Date(parseInt(item))` is an Invalid Date (`None`) when parsing
      fails or the value is out of the time-value range. The empty-string
      test is redundant: `parseInt("")` is NaN as well. */
  function StoredVoteTime(item: Option<string>): (t: Option<TimeValue>)
    ensures item.None? || item == Some("") ==> t.None?
    ensures t == TimeClip(if item.None? then None else ParseInt(item.value))
  {
    match item
    case None => None
    case Some(s) => if s == "" then None else TimeClip(ParseInt(s))
  }

  /** Whether page load shows the "already voted" notice at time `now`.
      An Invalid Date makes the difference NaN and `NaN < 30` false, so an
      unreadable item never blocks (fail open). */
  function AlreadyVoted(item: Option<string>, now: TimeValue): (blocked: bool)
    ensures item.None? || item == Some("") ==> !blocked
    ensures item.Some? && ParseInt(item.value).None? ==> !blocked
    ensures blocked ==> StoredVoteTime(item).Some?
  {
    match StoredVoteTime(item)
    case None => false
    case Some(t) => now - t < GuardWindowMs
  }

  /** After a submission at `t`, a page load at `now` is blocked exactly when
      fewer than 30 days (in milliseconds) have passed; a clock set back
      before `t` also blocks. */
  lemma GuardAfterVote(t: TimeValue, now: TimeValue)
    ensures AlreadyVoted(Some(VoteRecord(t)), now) <==> now - t < GuardWindowMs
  {
  }

  /** The boundary is strict: one millisecond before 30 days still blocks,
      exactly 30 days does not, and so neither do 29 and 31 days on their
      respective sides. */
  lemma GuardBoundary(t: TimeValue)
    requires t + 31 * MsPerDay <= MaxTimeValue
    ensures AlreadyVoted(Some(VoteRecord(t)), t + 29 * MsPerDay)
    ensures AlreadyVoted(Some(VoteRecord(t)), t + GuardWindowMs - 1)
    ensures !AlreadyVoted(Some(VoteRecord(t)), t + GuardWindowMs)
    ensures !AlreadyVoted(Some(VoteRecord(t)), t + 31 * MsPerDay)
  {
  }

  /** Once the guard has lapsed it stays lapsed as time moves forward; while
      it holds, it also held at every earlier instant. */
  lemma GuardExpiresForGood(item: Option<string>, now: TimeValue, later: TimeValue)
    requires now <= later
    ensures AlreadyVoted(item, later) ==> AlreadyVoted(item, now)
  {
  }

  /** `parseInt` skips leading whitespace and stops at the first non-digit. */
  lemma ParseSkipsWhiteSpaceAndSuffix()
    ensures StoredVoteTime(Some(" 42ms")) == Some(42)
  {
    var item := " 42ms";
    assert LeadingWhiteSpace(item) == 1;
    assert item[1..] == "42ms";
    assert DigitPrefixLength("42ms", 10) == 2;
    assert "42ms"[..2] == "42" && "42"[..1] == "4";
    assert DigitsValue("42", 10) == 42;
  }

  /** A "0x" prefix switches `parseInt` to hexadecimal. */
  lemma ParseHexPrefix()
    ensures StoredVoteTime(Some("0x1A")) == Some(26)
  {
    var item := "0x1A";
    assert LeadingWhiteSpace(item) == 0;
    assert item[0..][2..] == "1A";
    assert DigitPrefixLength("1A", 16) == 2;
    assert "1A"[..2] == "1A" && "1A"[..1] == "1";
    assert DigitsValue("1A", 16) == 26;
  }

  /** A stored value with no digits is NaN, and so never blocks. */
  lemma ParseNotANumber(now: TimeValue)
    ensures StoredVoteTime(Some("abc")) == None
    ensures !AlreadyVoted(Some("abc"), now)
  {
  }

  function Pow10(k: nat): nat {
    if k == 0 then 1 else 10 * Pow10(k - 1)
  }

  lemma {:induction false} Pow10Monotone(j: nat, k: nat)
    requires j <= k
    ensures Pow10(j) <= Pow10(k)
  {
    if j < k {
      Pow10Monotone(j, k - 1);
    }
  }

  lemma {:induction false} DecimalLowerBound(s: string)
    requires |s| >= 1 && AllDigits(s, 10) && s[0] != '0'
    ensures DigitsValue(s, 10) >= Pow10(|s| - 1)
  {
    if |s| > 1 {
      var p := s[..|s| - 1];
      assert p[0] == s[0];
      DecimalLowerBound(p);
    }
  }

  /** A stored number of 17 or more digits, the first of them not 0, lies
      beyond the time-value range: `new Date` makes it an Invalid Date, so
      it never blocks. */
  lemma LongNumbersNeverBlock(item: string, now: TimeValue)
    requires |item| >= 17 && AllDigits(item, 10) && item[0] != '0'
    ensures StoredVoteTime(Some(item)) == None
    ensures !AlreadyVoted(Some(item), now)
  {
    assert !IsStrWhiteSpace(item[0]) && IsDigit(item[1], 10);
    assert LeadingWhiteSpace(item) == 0;
    assert item[0..] == item;
    AllDigitsPrefixLength(item, 10);
    assert item[..|item|] == item;
    DecimalLowerBound(item);
    var k := |item| - 1;
    Pow10Monotone(16, k);
    assert Pow10(16) == 10_000_000_000_000_000 by {
      assert Pow10(4) == 10_000;
      assert Pow10(8) == 100_000_000;
      assert Pow10(12) == 1_000_000_000_000;
    }
    assert DigitsValue(item, 10) > MaxTimeValue;
    assert ParseInt(item) == Some(DigitsValue(item, 10));
  }
}
