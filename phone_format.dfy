/** The Chilean mobile number formatter of the registration form
    (`formatChileanPhone`, app/src/main/java/com/example/uinavegacion/ui/viewmodel/AuthViewModel.kt)
    and what it guarantees: the digits it keeps, its fixed points, its shape,
    and how its output fares under `validatePhoneDigitsOnly`. */
module PhoneFormat {
  import opened Text
  import opened Validators

  /** `formatChileanPhone`: keeps the digits of the input and lays out at
      most eleven of them as "+CC P FFFF LLLL". */
  function FormatChileanPhone(input: string): (r: string)
    ensures r == [] <==> DigitsOf(input) == []
    ensures r != [] ==> r[0] == '+' && |r| <= 15
  {
    var digits := DigitsOf(input);
    if digits == [] then ""
    else if |digits| <= 2 then "+" + digits
    else if |digits| == 3 then "+" + digits[..2] + " " + [digits[2]]
    else if |digits| <= 11 then
      var countryCode := digits[..2];
      var mobilePrefix := [digits[2]];
      var remaining := digits[3..];
      if remaining == [] then "+" + countryCode + " " + mobilePrefix
      else if |remaining| <= 4 then "+" + countryCode + " " + mobilePrefix + " " + remaining
      else
        var first4 := remaining[..4];
        var last4 := Take(remaining[4..], 4);
        "+" + countryCode + " " + mobilePrefix + " " + first4 + " " + last4
    else
      var trimmed := Take(digits, 11);
      var countryCode := trimmed[..2];
      var mobilePrefix := [trimmed[2]];
      var first4 := trimmed[3..7];
      var last4 := trimmed[7..];
      "+" + countryCode + " " + mobilePrefix + " " + first4 + " " + last4
  }

  /** The long layout of eleven digits, as characters. */
  lemma LongLayoutChars(t: string)
    requires |t| == 11
    ensures "+" + t[..2] + " " + [t[2]] + " " + t[3..7] + " " + t[7..]
      == ['+', t[0], t[1], ' ', t[2], ' ', t[3], t[4], t[5], t[6], ' ', t[7], t[8], t[9], t[10]]
  {
    var head := "+" + t[..2] + " " + [t[2]];
    var mid := " " + t[3..7];
    var tail := " " + t[7..];
    assert head == ['+', t[0], t[1], ' ', t[2]];
    assert mid == [' ', t[3], t[4], t[5], t[6]];
    assert tail == [' ', t[7], t[8], t[9], t[10]];
  }

  /** The middle layout of eight to eleven digits, as characters. */
  lemma MidLayoutChars(d: string)
    requires 8 <= |d| <= 11
    ensures "+" + d[..2] + " " + [d[2]] + " " + d[3..][..4] + " " + Take(d[3..][4..], 4)
      == ['+', d[0], d[1], ' ', d[2], ' ', d[3], d[4], d[5], d[6], ' '] + d[7..]
  {
    var head := "+" + d[..2] + " " + [d[2]];
    var mid := " " + d[3..][..4];
    var tail := " " + Take(d[3..][4..], 4);
    assert head == ['+', d[0], d[1], ' ', d[2]];
    assert mid == [' ', d[3], d[4], d[5], d[6]];
    assert tail == [' '] + d[7..];
  }

  /** The output character by character, for each number of digits. */
  lemma FormatLayoutLong(input: string)
    requires |DigitsOf(input)| > 11
    ensures var d := DigitsOf(input); FormatChileanPhone(input) == ['+', d[0], d[1], ' ', d[2], ' ', d[3], d[4], d[5], d[6], ' ', d[7], d[8], d[9], d[10]]
  {
    var d := DigitsOf(input);
    var t := Take(d, 11);
    assert t == d[..11];
    LongLayoutChars(t);
  }
  lemma FormatLayoutMid(input: string)
    requires 8 <= |DigitsOf(input)| <= 11
    ensures var d := DigitsOf(input); FormatChileanPhone(input) == ['+', d[0], d[1], ' ', d[2], ' ', d[3], d[4], d[5], d[6], ' '] + d[7..]
  {
    MidLayoutChars(DigitsOf(input));
  }
  lemma FormatLayoutShort(input: string)
    requires 4 <= |DigitsOf(input)| <= 7
    ensures var d := DigitsOf(input); FormatChileanPhone(input) == ['+', d[0], d[1], ' ', d[2], ' '] + d[3..]
  {
  }
  lemma FormatLayoutThree(input: string)
    requires |DigitsOf(input)| == 3
    ensures var d := DigitsOf(input); FormatChileanPhone(input) == ['+', d[0], d[1], ' ', d[2]]
  {
  }

  lemma FormatLayout(input: string)
    ensures var d := DigitsOf(input); var r := FormatChileanPhone(input);
      && (|d| <= 2 ==> r == (if d == [] then [] else ['+'] + d))
      && (|d| == 3 ==> r == ['+', d[0], d[1], ' ', d[2]])
      && (4 <= |d| <= 7 ==> r == ['+', d[0], d[1], ' ', d[2], ' '] + d[3..])
      && (|d| >= 8 ==> r == ['+', d[0], d[1], ' ', d[2], ' ', d[3], d[4], d[5], d[6], ' '] + Take(d, 11)[7..])
  {
    var d := DigitsOf(input);
    if |d| == 3 {
      FormatLayoutThree(input);
    } else if 4 <= |d| <= 7 {
      FormatLayoutShort(input);
    } else if 8 <= |d| <= 11 {
      FormatLayoutMid(input);
    } else if |d| > 11 {
      FormatLayoutLong(input);
      assert Take(d, 11)[7..] == [d[7], d[8], d[9], d[10]];
    }
  }

  /** The full layout "+DD D DDDD DDDD". */
  predicate FullShape(r: string) {
    |r| == 15 && r[0] == '+' && r[3] == ' ' && r[5] == ' ' && r[10] == ' '
    && forall i :: 0 < i < 15 && i != 3 && i != 5 && i != 10 ==> IsDigit(r[i])
  }

  lemma DigitsOfSpace()
    ensures DigitsOf(" ") == [] && DigitsOf("+") == []
  {
    assert DigitsOf(" ") == DigitsOf(" "[1..]);
    assert DigitsOf("+") == DigitsOf("+"[1..]);
  }

  lemma DigitsOfSpacedGroup(prefix: string, group: string)
    requires AllDigits(group)
    ensures DigitsOf(prefix + " " + group) == DigitsOf(prefix) + group
  {
    DigitsOfSpace();
    DigitsOfConcat(prefix + " ", group);
    DigitsOfConcat(prefix, " ");
    DigitsOfAllDigits(group);
  }

  lemma DigitsOfPlusGroup(group: string)
    requires AllDigits(group)
    ensures DigitsOf("+" + group) == group
  {
    DigitsOfSpace();
    DigitsOfConcat("+", group);
    DigitsOfAllDigits(group);
  }

  /** The digits of the output are the first (at most eleven) digits of the
      input, in order. */
  lemma FormatKeepsDigits(input: string)
    ensures DigitsOf(FormatChileanPhone(input)) == Take(DigitsOf(input), 11)
  {
    var d := DigitsOf(input);
    if d == [] {
    } else if |d| <= 2 {
      DigitsOfPlusGroup(d);
    } else {
      KeepsDigitsFromThree(input);
    }
  }

  /** Three or more digits: the first five characters carry three digits and
      the rest carries the others, up to eleven in all. */
  lemma KeepsDigitsFromThree(input: string)
    requires |DigitsOf(input)| >= 3
    ensures DigitsOf(FormatChileanPhone(input)) == Take(DigitsOf(input), 11)
  {
    FormatTail(input);
    DigitsOfHeadAndTail(DigitsOf(input), FormatChileanPhone(input));
  }

  lemma DigitsOfHeadAndTail(d: string, r: string)
    requires AllDigits(d) && |d| >= 3
    requires |r| >= 5 && r[..5] == ['+', d[0], d[1], ' ', d[2]]
    requires DigitsOf(r[5..]) == Take(d, 11)[3..]
    ensures DigitsOf(r) == Take(d, 11)
  {
    var head := r[..5];
    var t := Take(d, 11);
    assert r == head + r[5..];
    DigitsOfConcat(head, r[5..]);
    DigitsOfHead(d[0], d[1], d[2]);
    assert t == [d[0], d[1], d[2]] + t[3..];
  }

  lemma DigitsOfHead(a: char, b: char, c: char)
    requires IsDigit(a) && IsDigit(b) && IsDigit(c)
    ensures DigitsOf(['+', a, b, ' ', c]) == [a, b, c]
  {
    assert AllDigits([a, b]) && AllDigits([c]);
    DigitsOfPlusGroup([a, b]);
    DigitsOfSpacedGroup("+" + [a, b], [c]);
    assert ['+', a, b, ' ', c] == "+" + [a, b] + " " + [c];
  }

  /** The output depends on the input only through its digits. */
  lemma FormatDependsOnDigits(a: string, b: string)
    requires DigitsOf(a) == DigitsOf(b)
    ensures FormatChileanPhone(a) == FormatChileanPhone(b)
  {
  }

  /** Formatting an already formatted value gives it back unchanged. */
  lemma FormatIdempotent(input: string)
    ensures FormatChileanPhone(FormatChileanPhone(input)) == FormatChileanPhone(input)
  {
    var d := DigitsOf(input);
    FormatKeepsDigits(input);
    if |d| <= 11 {
      FormatDependsOnDigits(FormatChileanPhone(input), input);
    } else {
      var t := Take(d, 11);
      assert DigitsOf(FormatChileanPhone(input)) == t;
      assert t[3..][..4] == t[3..7];
      assert Take(t[3..][4..], 4) == t[7..];
    }
  }

  /** Any input with eleven or more digits is laid out in full. */
  lemma FormatFullShape(input: string)
    requires |DigitsOf(input)| >= 11
    ensures FullShape(FormatChileanPhone(input))
  {
    var d := DigitsOf(input);
    if |d| > 11 {
      FormatLayoutLong(input);
    } else {
      FormatLayoutMid(input);
      assert d[7..] == [d[7], d[8], d[9], d[10]];
    }
    LongLayoutShape(d);
  }

  lemma LongLayoutShape(d: string)
    requires |d| >= 11 && AllDigits(d)
    ensures FullShape(['+', d[0], d[1], ' ', d[2], ' ', d[3], d[4], d[5], d[6], ' ', d[7], d[8], d[9], d[10]])
  {
  }

  predicate DigitsAndSpaces(s: string) {
    forall i :: 0 <= i < |s| ==> IsDigit(s[i]) || s[i] == ' '
  }

  /** Removing the spaces from a string of digits and spaces leaves its digits. */
  lemma {:induction false} RemoveSpacesKeepsDigits(s: string)
    requires DigitsAndSpaces(s)
    ensures RemoveChar(s, ' ') == DigitsOf(s)
  {
    if s != [] {
      RemoveSpacesKeepsDigits(s[1..]);
    }
  }

  /** The layout of `FormatChileanPhone` for three or more digits `d`. */
  predicate LaidOut(d: string, r: string)
    requires |d| >= 3
  {
    && (|d| == 3 ==> r == ['+', d[0], d[1], ' ', d[2]])
    && (4 <= |d| <= 7 ==> r == ['+', d[0], d[1], ' ', d[2], ' '] + d[3..])
    && (|d| >= 8 ==> r == ['+', d[0], d[1], ' ', d[2], ' ', d[3], d[4], d[5], d[6], ' '] + Take(d, 11)[7..])
  }

  lemma LaidOutTail(d: string, r: string)
    requires |d| >= 3 && AllDigits(d) && LaidOut(d, r)
    ensures |r| >= 5 && r[..5] == ['+', d[0], d[1], ' ', d[2]]
    ensures DigitsAndSpaces(r[5..]) && DigitsOf(r[5..]) == Take(d, 11)[3..]
  {
    if |d| == 3 {
      assert r[5..] == [];
    } else if |d| <= 7 {
      AllDigitsSlice(d, 3, |d|);
      assert r[5..] == [] + " " + d[3..];
      DigitsOfSpacedGroup([], d[3..]);
    } else {
      LongTail(d, r);
    }
  }

  lemma AllDigitsSlice(d: string, a: int, b: int)
    requires AllDigits(d) && 0 <= a <= b <= |d|
    ensures AllDigits(d[a..b])
  {
    assert forall i :: 0 <= i < b - a ==> d[a..b][i] == d[a + i];
  }

  /** Two digit groups, each after a space: digits and spaces, whose digits
      are the two groups. */
  lemma SpacedGroups(a: string, b: string)
    requires AllDigits(a) && AllDigits(b)
    ensures DigitsAndSpaces(" " + a + " " + b)
    ensures DigitsOf(" " + a + " " + b) == a + b
  {
    DigitsOfSpacedGroup([], a);
    DigitsOfSpacedGroup(" " + a, b);
    var s := " " + a + " " + b;
    forall i | 0 <= i < |s|
      ensures IsDigit(s[i]) || s[i] == ' '
    {
      if 1 <= i < |a| + 1 {
        assert s[i] == a[i - 1];
      } else if i > |a| + 1 {
        assert s[i] == b[i - |a| - 2];
      }
    }
  }

  /** `LaidOutTail` for eight or more digits. */
  lemma LongTail(d: string, r: string)
    requires |d| >= 8 && AllDigits(d) && LaidOut(d, r)
    ensures |r| >= 5 && r[..5] == ['+', d[0], d[1], ' ', d[2]]
    ensures DigitsAndSpaces(r[5..]) && DigitsOf(r[5..]) == Take(d, 11)[3..]
  {
    var t := Take(d, 11);
    var first4 := t[3..7];
    var last := t[7..];
    AllDigitsSlice(d, 3, 7);
    AllDigitsSlice(d, 7, |t|);
    assert first4 == d[3..7] && last == d[7..|t|];
    var head := ['+', d[0], d[1], ' ', d[2]];
    var mid := [' ', d[3], d[4], d[5], d[6], ' '];
    assert r == head + (mid + last);
    assert mid + last == " " + first4 + " " + last;
    SpacedGroups(first4, last);
    assert first4 + last == t[3..];
  }

  /** Past its first five characters, a formatted number holds spaces and
      the digits after the first three. */
  lemma FormatTail(input: string)
    requires |DigitsOf(input)| >= 3
    ensures var r := FormatChileanPhone(input); var d := DigitsOf(input);
      && |r| >= 5
      && r[..5] == ['+', d[0], d[1], ' ', d[2]]
      && DigitsAndSpaces(r[5..])
      && DigitsOf(r[5..]) == Take(DigitsOf(input), 11)[3..]
  {
    FormatLayout(input);
    LaidOutTail(DigitsOf(input), FormatChileanPhone(input));
  }

  /** `validatePhoneDigitsOnly` on a string whose first five characters are
      `head` and whose remainder holds only digits and spaces: it accepts
      exactly when `head` is the prefix and the remainder has eight digits. */
  lemma PhoneVerdict(r: string, head: string, rest: string)
    requires |r| >= 5 && r[..5] == head
    requires DigitsAndSpaces(r[5..]) && rest == DigitsOf(r[5..])
    ensures StartsWith(r, PHONE_PREFIX) <==> head == PHONE_PREFIX
    ensures head == PHONE_PREFIX ==> DigitsAfterPrefix(r) == rest
    ensures ValidatePhoneDigitsOnly(r).None? <==> head == PHONE_PREFIX && |rest| == 8
  {
    if head == PHONE_PREFIX {
      var tail := r[5..];
      assert DeleteAll(r, PHONE_PREFIX) == DeleteAll(tail, PHONE_PREFIX);
      assert '+' !in tail by {
        assert forall i :: 0 <= i < |tail| ==> tail[i] != '+';
      }
      DeleteAllAbsent(tail, PHONE_PREFIX);
      RemoveSpacesKeepsDigits(tail);
      TrimAllDigits(DigitsOf(tail));
    }
  }

  /** What `validatePhoneDigitsOnly` reads after the prefix of a formatted
      number that starts with "+56 9": its digits after the first three. */
  lemma FormattedDigitsAfterPrefix(input: string)
    requires StartsWith(FormatChileanPhone(input), PHONE_PREFIX)
    ensures |DigitsOf(input)| >= 3
    ensures DigitsAfterPrefix(FormatChileanPhone(input)) == Take(DigitsOf(input), 11)[3..]
  {
    var r := FormatChileanPhone(input);
    var d := DigitsOf(input);
    FormatLayout(input);
    assert |d| >= 3;
    FormatTail(input);
    PhoneVerdict(r, r[..5], Take(d, 11)[3..]);
  }

  lemma PhoneHead(d: string)
    requires |d| >= 3
    ensures ['+', d[0], d[1], ' ', d[2]] == PHONE_PREFIX <==> d[..3] == "569"
  {
  }

  lemma PhoneVerdictOfDigits(r: string, d: string)
    requires AllDigits(d) && (r == [] <==> d == [])
    requires |d| < 3 ==> |r| < 5
    requires |d| >= 3 ==> (|r| >= 5 && r[..5] == ['+', d[0], d[1], ' ', d[2]]
      && DigitsAndSpaces(r[5..]) && DigitsOf(r[5..]) == Take(d, 11)[3..])
    ensures ValidatePhoneDigitsOnly(r).None? <==> |d| >= 11 && d[..3] == "569"
  {
    if |d| < 3 {
      assert !StartsWith(r, PHONE_PREFIX);
    } else {
      var head := ['+', d[0], d[1], ' ', d[2]];
      var rest := Take(d, 11)[3..];
      PhoneVerdict(r, head, rest);
      PhoneHead(d);
      assert |rest| == 8 <==> |d| >= 11;
    }
  }

  /** The formatter and the validator agree: a formatted number passes
      `validatePhoneDigitsOnly` exactly when the input has at least eleven
      digits and its first three are 5, 6 and 9. */
  lemma FormattedPhoneValid(input: string)
    ensures ValidatePhoneDigitsOnly(FormatChileanPhone(input)).None? <==>
      (|DigitsOf(input)| >= 11 && DigitsOf(input)[..3] == "569")
  {
    FormatLayout(input);
    if |DigitsOf(input)| >= 3 {
      FormatTail(input);
    }
    PhoneVerdictOfDigits(FormatChileanPhone(input), DigitsOf(input));
  }
}
