/** internal/util: the start of the week and the capitalisation of labels. */
module Util {
  import opened Time
  import opened Strings

  /** `BeginningOfWeek`: Monday 00:00 of the week (Monday to Sunday) that
      contains `t`. */
  function BeginningOfWeek(t: Instant): (r: Instant)
    ensures IsMidnight(r)
    ensures WeekdayOf(DateOf(r)) == Monday
    ensures DateOf(t) - 6 <= DateOf(r) <= DateOf(t)
    ensures r <= t < AddDays(r, 7)
  {
    var date := DateOf(t);
    var weekday := WeekdayOf(date) as int;
    var weekday := if weekday == 0 then 7 else weekday;
    MidnightIsStartOfDate(date - weekday + 1);
    DateOfBounds(t);
    AddDays(Midnight(date), -weekday + 1)
  }

  /** A Sunday belongs to the week that began six days before it, not to the
      week that begins the next day. */
  lemma BeginningOfWeekOfSunday(t: Instant)
    requires WeekdayOf(DateOf(t)) == Sunday
    ensures DateOf(BeginningOfWeek(t)) == DateOf(t) - 6
  {
  }

  /** On a Monday the week begins at midnight of that same date. */
  lemma BeginningOfWeekOfMonday(t: Instant)
    requires WeekdayOf(DateOf(t)) == Monday
    ensures BeginningOfWeek(t) == Midnight(DateOf(t))
  {
  }

  lemma BeginningOfWeekIdempotent(t: Instant)
    ensures BeginningOfWeek(BeginningOfWeek(t)) == BeginningOfWeek(t)
  {
    var r := BeginningOfWeek(t);
    MidnightIsStartOfDate(DateOf(r));
    BeginningOfWeekOfMonday(r);
  }

  /** The Monday midnight at or before `t` and less than a week before it is
      unique, so the postcondition of `BeginningOfWeek` determines it. */
  lemma BeginningOfWeekUnique(t: Instant, m: Instant)
    requires IsMidnight(m) && WeekdayOf(DateOf(m)) == Monday
    requires m <= t < AddDays(m, 7)
    ensures m == BeginningOfWeek(t)
  {
    var r := BeginningOfWeek(t);
    assert m == Midnight(DateOf(m)) && r == Midnight(DateOf(r));
  }

  /** The first character is not a lower-case letter and no later character is
      an upper-case letter. */
  predicate IsCapitalized(s: string)
  {
    (|s| > 0 ==> !IsLowerAscii(s[0])) && forall i :: 1 <= i < |s| ==> !IsUpperAscii(s[i])
  }

  /** `Capitalize`: the first character upper-cased, the others lower-cased. */
  function Capitalize(s: string): (r: string)
    ensures |r| == |s|
    ensures IsCapitalized(r)
    ensures ToLower(r) == ToLower(s)
  {
    if s == "" then s else ToUpper(s[..1]) + ToLower(s[1..])
  }

  /** Only one string is both capitalised and equal to `s` up to case. */
  lemma CapitalizeUnique(s: string, x: string)
    requires IsCapitalized(x) && ToLower(x) == ToLower(s)
    ensures x == Capitalize(s)
  {
    var r := Capitalize(s);
    assert |x| == |ToLower(x)| == |ToLower(r)| == |r|;
    forall i | 0 <= i < |x|
      ensures x[i] == r[i]
    {
      assert LowerChar(x[i]) == ToLower(x)[i] == ToLower(r)[i] == LowerChar(r[i]);
    }
  }

  lemma CapitalizeIdempotent(s: string)
    ensures Capitalize(Capitalize(s)) == Capitalize(s)
  {
    CapitalizeUnique(Capitalize(s), Capitalize(s));
  }

  lemma CapitalizeEmpty()
    ensures Capitalize("") == ""
  {
  }
}
