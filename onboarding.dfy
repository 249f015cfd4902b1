/** The onboarding form of Onboarding.tsx: four text fields updated by their change
    handlers, the digit filter on the three date fields, and the submit guard. */
module Onboarding {
  import opened Results
  import opened Types

  /** `\D` without the `u` flag matches every character except '0'..'9'. */
  predicate IsAsciiDigit(c: char) {
    '0' <= c <= '9'
  }

  predicate AllDigits(s: string) {
    forall i :: 0 <= i < |s| ==> IsAsciiDigit(s[i])
  }

  /** `value.replace(/\D/g, '')`: drop every character that is not an ASCII digit. */
  function DigitsOnly(s: string): (r: string)
    ensures AllDigits(r)
    ensures |r| <= |s|
  {
    if s == [] then []
    else (if IsAsciiDigit(s[0]) then [s[0]] else []) + DigitsOnly(s[1..])
  }

  /** The filter works character by character: filtering a concatenation is the
      concatenation of the filtered halves. Together with its value on one character
      this fixes the filter completely, so the digits stay in their original order. */
  lemma {:induction false} DigitsOnlyAppend(a: string, b: string)
    ensures DigitsOnly(a + b) == DigitsOnly(a) + DigitsOnly(b)
  {
    if a == [] {
      assert a + b == b;
    } else {
      assert (a + b)[1..] == a[1..] + b;
      DigitsOnlyAppend(a[1..], b);
    }
  }

  /** Every ASCII digit occurs as often in the result as in the input; nothing else occurs. */
  lemma {:induction false} DigitsOnlyCounts(s: string, c: char)
    ensures multiset(DigitsOnly(s))[c] == if IsAsciiDigit(c) then multiset(s)[c] else 0
  {
    if s != [] {
      DigitsOnlyCounts(s[1..], c);
      assert s == [s[0]] + s[1..];
    }
  }

  /** The filter leaves a string unchanged exactly when it is made of ASCII digits only. */
  lemma {:induction false} DigitsOnlyFixed(s: string)
    ensures DigitsOnly(s) == s <==> AllDigits(s)
  {
    if s != [] && AllDigits(s) {
      assert AllDigits(s[1..]) by {
        forall i | 0 <= i < |s[1..]| ensures IsAsciiDigit(s[1..][i]) {
          assert s[1..][i] == s[i + 1];
        }
      }
      DigitsOnlyFixed(s[1..]);
      assert s == [s[0]] + s[1..];
    }
  }

  /** Filtering twice is filtering once. */
  lemma DigitsOnlyIdempotent(s: string)
    ensures DigitsOnly(DigitsOnly(s)) == DigitsOnly(s)
  {
    DigitsOnlyFixed(DigitsOnly(s));
  }

  /** The filtered field is empty exactly when the typed text holds no ASCII digit. */
  lemma {:induction false} DigitsOnlyEmpty(s: string)
    ensures DigitsOnly(s) == [] <==> forall i :: 0 <= i < |s| ==> !IsAsciiDigit(s[i])
  {
    if s != [] {
      DigitsOnlyEmpty(s[1..]);
      assert forall i :: 1 <= i < |s| ==> s[i] == s[1..][i - 1];
    }
  }

  /** The submit guard `name && day && month && year`: an empty string is falsy. */
  predicate Complete(p: UserProfile) {
    p.name != "" && p.day != "" && p.month != "" && p.year != ""
  }

  class OnboardingForm {
    var name: string
    var day: string
    var month: string
    var year: string

    /** The three date fields only ever hold what the digit filter lets through. */
    ghost predicate Valid()
      reads this
    {
      AllDigits(day) && AllDigits(month) && AllDigits(year)
    }

    function Fields(): (p: UserProfile)
      reads this
      ensures p.name == name && p.day == day && p.month == month && p.year == year
    {
      UserProfile(name, day, month, year)
    }

    /** All four fields start empty, so the form cannot be submitted straight away. */
    constructor ()
      ensures Valid()
      ensures name == "" && day == "" && month == "" && year == ""
      ensures !Complete(Fields())
    {
      name, day, month, year := "", "", "", "";
    }

    method SetName(value: string)
      requires Valid()
      modifies this
      ensures Valid()
      ensures Fields() == old(Fields()).(name := value)
    {
      name := value;
    }

    method SetDay(value: string)
      requires Valid()
      modifies this
      ensures Valid()
      ensures Fields() == old(Fields()).(day := DigitsOnly(value))
    {
      day := DigitsOnly(value);
    }

    method SetMonth(value: string)
      requires Valid()
      modifies this
      ensures Valid()
      ensures Fields() == old(Fields()).(month := DigitsOnly(value))
    {
      month := DigitsOnly(value);
    }

    method SetYear(value: string)
      requires Valid()
      modifies this
      ensures Valid()
      ensures Fields() == old(Fields()).(year := DigitsOnly(value))
    {
      year := DigitsOnly(value);
    }

    /** `handleSubmit`: the profile handed to `onComplete`, or `None` when it is not called.
        Because the date fields only ever pass through the digit filter, a submitted
        profile's date is all digits. */
    method Submit() returns (completed: Option<UserProfile>)
      requires Valid()
      ensures completed.Some? <==> name != "" && day != "" && month != "" && year != ""
      ensures completed.Some? ==> completed.value == UserProfile(name, day, month, year)
      ensures completed.Some? ==>
        AllDigits(completed.value.day) && AllDigits(completed.value.month) && AllDigits(completed.value.year)
    {
      if name != "" && day != "" && month != "" && year != "" {
        completed := Some(UserProfile(name, day, month, year));
      } else {
        completed := None;
      }
    }
  }
}
