/** The elapsed-time parser of util.go: `extractTimeInSeconds` turns the
    `[[DD-]HH:]MM:SS` text that `ps -o etime` prints into a number of seconds.
    The pattern `((\d+)-)?((\d{2}):)?(\d{2}):(\d{2})` is matched unanchored with
    leftmost-first preference; it is written out here as a scanner. */
module Elapsed {
  import opened Wrappers
  import opened Text

  /** The largest value Go's `strconv.Atoi` accepts on a 64-bit platform. */
  const MaxInt: int := 0x7FFF_FFFF_FFFF_FFFF

  /** Submatches 2, 4, 5 and 6 of the pattern: days, hours, minutes, seconds;
      a group that took no part in the match is "". */
  datatype TimeMatch = TimeMatch(days: string, hours: string, minutes: string, seconds: string)

  /** The shape every match has: days a numeral, hours absent or two digits,
      minutes and seconds two digits each. */
  predicate WellFormed(m: TimeMatch) {
    AllDigits(m.days) && AllDigits(m.hours) && AllDigits(m.minutes) && AllDigits(m.seconds)
    && (m.hours == "" || |m.hours| == 2) && |m.minutes| == 2 && |m.seconds| == 2
  }

  predicate TwoDigitsAt(s: string, i: nat) {
    i + 2 <= |s| && IsDigit(s[i]) && IsDigit(s[i + 1])
  }

  /** `\d{2}:\d{2}` occurs at position i. */
  predicate PairAt(s: string, i: nat) {
    i + 5 <= |s| && TwoDigitsAt(s, i) && s[i + 2] == ':' && TwoDigitsAt(s, i + 3)
  }

  /** The length of the run of digits that starts at p. */
  function DigitRun(s: string, p: nat): (k: nat)
    requires p <= |s|
    ensures p + k <= |s| && AllDigits(s[p..p + k])
    ensures p + k == |s| || !IsDigit(s[p + k])
    decreases |s| - p
  {
    if p < |s| && IsDigit(s[p]) then
      var k := 1 + DigitRun(s, p + 1);
      assert s[p..p + k] == [s[p]] + s[p + 1..p + k];
      k
    else 0
  }

  /** `((\d{2}):)?(\d{2}):(\d{2})` at q, preferring to take the hours group. */
  function ClockAt(s: string, q: nat): (r: Option<TimeMatch>)
    ensures r.Some? ==> WellFormed(r.value) && r.value.days == ""
    ensures r.Some? <==> PairAt(s, q)
  {
    if q + 8 <= |s| && TwoDigitsAt(s, q) && s[q + 2] == ':' && PairAt(s, q + 3) then
      Some(TimeMatch("", s[q..q + 2], s[q + 3..q + 5], s[q + 6..q + 8]))
    else if PairAt(s, q) then
      Some(TimeMatch("", "", s[q..q + 2], s[q + 3..q + 5]))
    else None
  }

  /** The match that starts at p, if any: first with the days group (a digit run
      and '-'), then without it. */
  function MatchAt(s: string, p: nat): (r: Option<TimeMatch>)
    requires p <= |s|
    ensures r.Some? ==> WellFormed(r.value)
    ensures PairAt(s, p) ==> r.Some?
  {
    var k := DigitRun(s, p);
    if k > 0 && p + k < |s| && s[p + k] == '-' && ClockAt(s, p + k + 1).Some? then
      var c := ClockAt(s, p + k + 1).value;
      Some(c.(days := s[p..p + k]))
    else ClockAt(s, p)
  }

  /** The leftmost match at or after p. */
  function FindFrom(s: string, p: nat): (r: Option<TimeMatch>)
    requires p <= |s|
    ensures r.Some? ==> WellFormed(r.value)
    decreases |s| - p
  {
    if MatchAt(s, p).Some? then MatchAt(s, p)
    else if p == |s| then None
    else FindFrom(s, p + 1)
  }

  /** Go's `strconv.Atoi` on a numeral: its value, or a range error. */
  function Atoi(digits: string): (r: Result<nat, string>)
    requires AllDigits(digits)
    ensures r.Ok? <==> DecimalValue(digits) <= MaxInt
    ensures r.Ok? ==> r.value == DecimalValue(digits)
  {
    if DecimalValue(digits) <= MaxInt then Ok(DecimalValue(digits))
    else Err("Failed to convert string to integer: strconv.Atoi: parsing \"" + digits + "\": value out of range")
  }

  /** `toIntOrZero`: an absent group counts as zero. */
  function ToIntOrZero(digits: string): (r: Result<nat, string>)
    requires AllDigits(digits)
    ensures digits == "" ==> r == Ok(0)
    ensures digits != "" ==> r == Atoi(digits)
  {
    if digits == "" then Ok(0) else Atoi(digits)
  }

  /** The total the program computes from days, hours, minutes and seconds. */
  function Seconds(days: nat, hours: nat, minutes: nat, seconds: nat): nat {
    days * 86400 + hours * 3600 + minutes * 60 + seconds
  }

  function NoMatchMessage(elapsedTime: string): string {
    "Could not match time format '" + elapsedTime + "'\n"
  }

  /** The total for one match: both branches of the program compute the same
      formula, an absent group counting as zero. */
  function Total(m: TimeMatch): (r: Result<nat, string>)
    requires WellFormed(m)
    ensures m.days == "" || DecimalValue(m.days) <= MaxInt ==>
      r == Ok(Seconds(if m.days == "" then 0 else DecimalValue(m.days),
                      if m.hours == "" then 0 else DecimalValue(m.hours),
                      DecimalValue(m.minutes), DecimalValue(m.seconds)))
    ensures m.days != "" && DecimalValue(m.days) > MaxInt ==> r == Err(Atoi(m.days).error)
  {
    assert Pow10(2) == 100;
    var hours := ToIntOrZero(m.hours).value;
    var minutes := ToIntOrZero(m.minutes).value;
    var seconds := ToIntOrZero(m.seconds).value;
    if m.days == "" then
      Ok(hours * 60 * 60 + minutes * 60 + seconds)
    else
      var days :- ToIntOrZero(m.days);
      Ok(days * 86400 + hours * 60 * 60 + minutes * 60 + seconds)
  }

  /** `extractTimeInSeconds`. The program aborts (`log.Fatalf`) when the text
      does not match or the days do not fit an `int`; both are `Err` here. */
  function ParseElapsed(elapsedTime: string): (r: Result<nat, string>)
    ensures FindFrom(elapsedTime, 0).None? ==> r == Err(NoMatchMessage(elapsedTime))
    ensures FindFrom(elapsedTime, 0).Some? ==> r == Total(FindFrom(elapsedTime, 0).value)
  {
    match FindFrom(elapsedTime, 0)
    case None => Err(NoMatchMessage(elapsedTime))
    case Some(m) => Total(m)
  }
}

/** What `extractTimeInSeconds` promises about the shapes `ps` prints. */
module ElapsedFacts {
  import opened Wrappers
  import opened Text
  import opened Elapsed

  predicate Numeral2(s: string) {
    |s| == 2 && AllDigits(s)
  }

  lemma {:induction false} DigitRunIs(s: string, p: nat, k: nat)
    requires p + k <= |s|
    requires forall i :: p <= i < p + k ==> IsDigit(s[i])
    requires p + k == |s| || !IsDigit(s[p + k])
    ensures DigitRun(s, p) == k
    decreases k
  {
    if k > 0 {
      DigitRunIs(s, p + 1, k - 1);
    }
  }

  lemma ClockLayout(hh: string, mm: string, ss: string)
    requires |hh| == 2 && |mm| == 2 && |ss| == 2
    ensures var t := hh + ":" + mm + ":" + ss;
      |t| == 8 && t[0..2] == hh && t[2] == ':' && t[3..5] == mm && t[5] == ':' && t[6..8] == ss
  {
  }

  /** `DD:DD:DD` at q is read as hours, minutes and seconds. */
  lemma ClockHours(s: string, q: nat, hh: string, mm: string, ss: string)
    requires Numeral2(hh) && Numeral2(mm) && Numeral2(ss)
    requires q + 8 <= |s| && s[q..q + 8] == hh + ":" + mm + ":" + ss
    ensures ClockAt(s, q) == Some(TimeMatch("", hh, mm, ss))
  {
    ClockLayout(hh, mm, ss);
    var t := s[q..q + 8];
    assert forall i :: 0 <= i < 8 ==> s[q + i] == t[i];
    assert s[q..q + 2] == t[0..2];
    assert s[q + 3..q + 5] == t[3..5];
    assert s[q + 6..q + 8] == t[6..8];
    assert s[q + 2] == t[2] && s[q + 5] == t[5];
    assert s[q] == hh[0] && s[q + 1] == hh[1];
    assert s[q + 3] == mm[0] && s[q + 4] == mm[1];
    assert s[q + 6] == ss[0] && s[q + 7] == ss[1];
  }

  /** `DD:DD` at q, not followed by `:DD`, is read as minutes and seconds. */
  lemma ClockMinutes(s: string, q: nat, mm: string, ss: string)
    requires Numeral2(mm) && Numeral2(ss)
    requires q + 5 == |s| && s[q..q + 5] == mm + ":" + ss
    ensures ClockAt(s, q) == Some(TimeMatch("", "", mm, ss))
  {
    var t := s[q..q + 5];
    assert t[0..2] == mm && t[2] == ':' && t[3..5] == ss;
    assert s[q..q + 2] == t[0..2] && s[q + 3..q + 5] == t[3..5] && s[q + 2] == t[2];
    assert s[q] == mm[0] && s[q + 1] == mm[1] && s[q + 3] == ss[0] && s[q + 4] == ss[1];
  }

  lemma FoundAtStart(s: string)
    requires MatchAt(s, 0).Some?
    ensures FindFrom(s, 0) == MatchAt(s, 0)
  {
  }

  /** A text that starts with two digits and a ':' has its leftmost match at 0,
      without a days group. */
  lemma MatchFromStart(s: string)
    requires |s| >= 3 && IsDigit(s[0]) && IsDigit(s[1]) && s[2] == ':' && ClockAt(s, 0).Some?
    ensures FindFrom(s, 0) == ClockAt(s, 0)
  {
    DigitRunIs(s, 0, 2);
  }

  lemma MinutesSecondsMatch(mm: string, ss: string)
    requires Numeral2(mm) && Numeral2(ss)
    ensures FindFrom(mm + ":" + ss, 0) == Some(TimeMatch("", "", mm, ss))
  {
    var s := mm + ":" + ss;
    assert s[0..5] == s;
    ClockMinutes(s, 0, mm, ss);
    MatchFromStart(s);
  }

  /** `MM:SS` is minutes*60 + seconds. */
  lemma MinutesSeconds(mm: string, ss: string)
    requires Numeral2(mm) && Numeral2(ss)
    ensures ParseElapsed(mm + ":" + ss) == Ok(Seconds(0, 0, DecimalValue(mm), DecimalValue(ss)))
  {
    MinutesSecondsMatch(mm, ss);
  }

  lemma HoursMatch(hh: string, mm: string, ss: string)
    requires Numeral2(hh) && Numeral2(mm) && Numeral2(ss)
    ensures FindFrom(hh + ":" + mm + ":" + ss, 0) == Some(TimeMatch("", hh, mm, ss))
  {
    var s := hh + ":" + mm + ":" + ss;
    assert s[0..8] == s;
    ClockHours(s, 0, hh, mm, ss);
    MatchFromStart(s);
  }

  /** `HH:MM:SS` is hours*3600 + minutes*60 + seconds. */
  lemma HoursMinutesSeconds(hh: string, mm: string, ss: string)
    requires Numeral2(hh) && Numeral2(mm) && Numeral2(ss)
    ensures ParseElapsed(hh + ":" + mm + ":" + ss)
         == Ok(Seconds(0, DecimalValue(hh), DecimalValue(mm), DecimalValue(ss)))
  {
    HoursMatch(hh, mm, ss);
  }

  lemma DaysLayout(d: string, clock: string)
    requires |clock| == 8
    ensures var s := d + "-" + clock;
      s[0..|d|] == d && s[|d|] == '-' && s[|d| + 1..|d| + 9] == clock && |s| == |d| + 9
  {
  }

  lemma DaysMatch(d: string, hh: string, mm: string, ss: string)
    requires |d| >= 1 && AllDigits(d)
    requires Numeral2(hh) && Numeral2(mm) && Numeral2(ss)
    ensures FindFrom(d + "-" + hh + ":" + mm + ":" + ss, 0) == Some(TimeMatch(d, hh, mm, ss))
  {
    var clock := hh + ":" + mm + ":" + ss;
    var s := d + "-" + hh + ":" + mm + ":" + ss;
    assert s == d + "-" + clock;
    DaysLayout(d, clock);
    DigitRunIs(s, 0, |d|);
    ClockHours(s, |d| + 1, hh, mm, ss);
    assert MatchAt(s, 0) == Some(TimeMatch(d, hh, mm, ss));
    FoundAtStart(s);
  }

  /** `D-HH:MM:SS` is days*86400 + hours*3600 + minutes*60 + seconds, for any
      number of day digits whose value fits an `int`. */
  lemma DaysHoursMinutesSeconds(d: string, hh: string, mm: string, ss: string)
    requires |d| >= 1 && AllDigits(d) && DecimalValue(d) <= MaxInt
    requires Numeral2(hh) && Numeral2(mm) && Numeral2(ss)
    ensures ParseElapsed(d + "-" + hh + ":" + mm + ":" + ss)
         == Ok(Seconds(DecimalValue(d), DecimalValue(hh), DecimalValue(mm), DecimalValue(ss)))
  {
    DaysMatch(d, hh, mm, ss);
  }

  /** A days group too large for an `int` makes `strconv.Atoi` fail. */
  lemma DaysOutOfRange(d: string, hh: string, mm: string, ss: string)
    requires |d| >= 1 && AllDigits(d) && DecimalValue(d) > MaxInt
    requires Numeral2(hh) && Numeral2(mm) && Numeral2(ss)
    ensures ParseElapsed(d + "-" + hh + ":" + mm + ":" + ss) == Err(Atoi(d).error)
  {
    DaysMatch(d, hh, mm, ss);
  }

  lemma {:induction false} MatchNeedsPair(s: string, p: nat)
    requires p <= |s|
    requires MatchAt(s, p).Some?
    ensures exists i: nat :: p <= i <= |s| && PairAt(s, i)
  {
    var k := DigitRun(s, p);
    if k > 0 && p + k < |s| && s[p + k] == '-' && ClockAt(s, p + k + 1).Some? {
      assert PairAt(s, p + k + 1);
    } else {
      assert PairAt(s, p);
    }
  }

  lemma {:induction false} FindNoneIff(s: string, p: nat)
    requires p <= |s|
    ensures FindFrom(s, p).None? <==> forall i: nat :: p <= i <= |s| ==> !PairAt(s, i)
    decreases |s| - p
  {
    if MatchAt(s, p).Some? {
      MatchNeedsPair(s, p);
    } else if p < |s| {
      FindNoneIff(s, p + 1);
    }
  }

  /** A match the scan finds is the match at some position from p on, and
      there is none at any position before it: the scan finds the leftmost. */
  lemma {:induction false} FindFromLeftmost(s: string, p: nat)
    requires p <= |s|
    ensures FindFrom(s, p).Some? ==>
      exists i: nat :: p <= i <= |s| && FindFrom(s, p) == MatchAt(s, i)
        && forall j: nat :: p <= j < i ==> MatchAt(s, j).None?
    decreases |s| - p
  {
    if MatchAt(s, p).Some? {
      assert FindFrom(s, p) == MatchAt(s, p);
    } else if p < |s| && FindFrom(s, p + 1).Some? {
      FindFromLeftmost(s, p + 1);
      var i: nat :| p + 1 <= i <= |s| && FindFrom(s, p + 1) == MatchAt(s, i)
        && forall j: nat :: p + 1 <= j < i ==> MatchAt(s, j).None?;
      assert forall j: nat :: p <= j < i ==> MatchAt(s, j).None?;
    }
  }

  /** The text is rejected exactly when no `DD:DD` occurs in it. */
  lemma RejectedIffNoPair(s: string)
    ensures FindFrom(s, 0).None? <==> forall i: nat :: i <= |s| ==> !PairAt(s, i)
    ensures FindFrom(s, 0).None? ==> ParseElapsed(s) == Err(NoMatchMessage(s))
  {
    FindNoneIff(s, 0);
  }

  /** A parsed age is a count of seconds whose minute and second fields (and
      hour field, when present) are two-digit numbers, each below 100. */
  lemma FieldsBelowHundred(s: string)
    requires ParseElapsed(s).Ok?
    ensures FindFrom(s, 0).Some?
    ensures var m := FindFrom(s, 0).value;
      && DecimalValue(m.minutes) < 100 && DecimalValue(m.seconds) < 100
      && (m.hours == "" || DecimalValue(m.hours) < 100)
  {
    var m := FindFrom(s, 0).value;
    assert Pow10(2) == 100;
    assert |m.minutes| == 2 && |m.seconds| == 2;
  }

  /** The worked values: a bare "45" is rejected, "02:45" is 165 seconds,
      "01:02:45" is 3765 and "3-01:02:45" is 262965. */
  lemma BareSecondsRejected()
    ensures ParseElapsed("45") == Err(NoMatchMessage("45"))
  {
    RejectedIffNoPair("45");
  }

  lemma SmallNumerals()
    ensures Numeral2("00") && Numeral2("01") && Numeral2("02") && Numeral2("45")
    ensures DecimalValue("00") == 0 && DecimalValue("01") == 1
    ensures DecimalValue("02") == 2 && DecimalValue("45") == 45
    ensures DecimalValue("3") == 3
  {
  }

  lemma ExampleMinutes()
    ensures ParseElapsed("02:45") == Ok(165)
  {
    SmallNumerals();
    MinutesSeconds("02", "45");
    assert "02" + ":" + "45" == "02:45";
  }

  lemma ExampleHours()
    ensures ParseElapsed("01:02:45") == Ok(3765)
  {
    SmallNumerals();
    HoursMinutesSeconds("01", "02", "45");
    assert "01" + ":" + "02" + ":" + "45" == "01:02:45";
  }

  lemma DaysText()
    ensures "3" + "-" + "01" + ":" + "02" + ":" + "45" == "3-01:02:45"
  {
    var t := "3" + "-" + "01" + ":" + "02" + ":" + "45";
    assert |t| == 10;
    assert forall i :: 0 <= i < 10 ==> t[i] == "3-01:02:45"[i];
  }

  lemma ExampleDays()
    ensures ParseElapsed("3-01:02:45") == Ok(262965)
  {
    SmallNumerals();
    DaysHoursMinutesSeconds("3", "01", "02", "45");
    DaysText();
  }
}
