/**
 * Version strings as both upgraders treat them: the format check
 * `^v?(\d+)\.(\d+)\.(\d+)$`, the removal of one leading `v`, and the
 * downgrade test, which is a plain lexicographic string comparison.
 */
module Versions {
  import opened Text

  /** `\d` in Go's regular expressions: an ASCII digit. */
  predicate IsDigit(c: char)
  {
    '0' <= c <= '9'
  }

  predicate AllDigits(s: string)
  {
    forall i :: 0 <= i < |s| ==> IsDigit(s[i])
  }

  /** `\d+`: one or more ASCII digits. */
  predicate IsNumber(s: string)
  {
    s != [] && AllDigits(s)
  }

  /** Three numbers joined by dots. */
  function Joined(x: string, y: string, z: string): string
  {
    x + "." + (y + "." + z)
  }

  /** Reference reading of the pattern: an optional `v`, then three numbers joined by dots. */
  ghost predicate MatchesVersionPattern(s: string)
  {
    exists x, y, z :: IsNumber(x) && IsNumber(y) && IsNumber(z) &&
      (s == Joined(x, y, z) || s == "v" + Joined(x, y, z))
  }

  /** Length of the longest run of digits at the start of `s`. */
  function LeadingDigits(s: string): (n: nat)
    ensures n <= |s|
    ensures AllDigits(s[..n])
    ensures n < |s| ==> !IsDigit(s[n])
  {
    if s != [] && IsDigit(s[0]) then
      var n := 1 + LeadingDigits(s[1..]);
      assert s[..n] == [s[0]] + s[1..][..n - 1];
      n
    else 0
  }

  /** `s` is `count` numbers joined by single dots, and nothing else. */
  predicate DottedNumbers(s: string, count: nat)
    requires count >= 1
    decreases count
  {
    var n := LeadingDigits(s);
    n > 0 &&
    if count == 1 then n == |s|
    else n < |s| && s[n] == '.' && DottedNumbers(s[n + 1..], count - 1)
  }

  /** `isValidVersion` (identical in both upgraders). */
  predicate IsValidVersion(version: string)
  {
    DottedNumbers(if HasPrefix(version, "v") then version[1..] else version, 3)
  }

  /** `strings.TrimPrefix(version, "v")`: the version used for every comparison. */
  function CleanVersion(version: string): string
  {
    TrimPrefix(version, "v")
  }

  /** `isDowngrade`: `strings.Compare(current, target) > 0`. */
  predicate IsDowngrade(current: string, target: string)
  {
    Compare(current, target) > 0
  }

  /** The digit run in front of a non-digit is exactly the leading number. */
  lemma {:induction false} LeadingDigitsOf(x: string, rest: string)
    requires AllDigits(x)
    requires rest == [] || !IsDigit(rest[0])
    ensures LeadingDigits(x + rest) == |x|
  {
    if x == [] {
      assert x + rest == rest;
    } else {
      assert (x + rest)[1..] == x[1..] + rest;
      LeadingDigitsOf(x[1..], rest);
    }
  }

  /** A number, a dot and a well-formed rest make one more dotted number. */
  lemma DottedNumbersCons(x: string, rest: string, count: nat)
    requires count >= 2 && IsNumber(x) && DottedNumbers(rest, count - 1)
    ensures DottedNumbers(x + "." + rest, count)
  {
    var s := x + "." + rest;
    assert s == x + ("." + rest);
    LeadingDigitsOf(x, "." + rest);
    assert s[|x| + 1..] == rest;
  }

  /** The first number and the rest of a dotted-number string. */
  lemma DottedNumbersUncons(s: string, count: nat) returns (x: string, rest: string)
    requires count >= 2 && DottedNumbers(s, count)
    ensures IsNumber(x) && DottedNumbers(rest, count - 1) && s == x + "." + rest
  {
    var n := LeadingDigits(s);
    x, rest := s[..n], s[n + 1..];
    assert s == x + "." + rest;
  }

  /** The last number of a dotted-number string. */
  lemma DottedNumbersOne(s: string)
    ensures DottedNumbers(s, 1) <==> IsNumber(s)
  {
    if IsNumber(s) {
      LeadingDigitsOf(s, []);
      assert s + [] == s;
    }
  }

  lemma ThreeNumbersJoined(x: string, y: string, z: string)
    requires IsNumber(x) && IsNumber(y) && IsNumber(z)
    ensures DottedNumbers(Joined(x, y, z), 3)
  {
    DottedNumbersOne(z);
    DottedNumbersCons(y, z, 2);
    DottedNumbersCons(x, y + "." + z, 3);
  }

  lemma ThreeNumbersSplit(t: string) returns (x: string, y: string, z: string)
    requires DottedNumbers(t, 3)
    ensures IsNumber(x) && IsNumber(y) && IsNumber(z) && t == Joined(x, y, z)
  {
    var rest;
    x, rest := DottedNumbersUncons(t, 3);
    y, z := DottedNumbersUncons(rest, 2);
    DottedNumbersOne(z);
  }

  /** A valid version without its `v` is the `v`-less version, and with it, `v` plus the rest. */
  lemma ValidVersionBody(s: string)
    ensures HasPrefix(s, "v") ==> s == "v" + s[1..]
  {
    if HasPrefix(s, "v") {
      assert s == s[..1] + s[1..];
    }
  }

  lemma ValidVersionHasPattern(s: string)
    requires IsValidVersion(s)
    ensures MatchesVersionPattern(s)
  {
    ValidVersionBody(s);
    if HasPrefix(s, "v") {
      var x, y, z := ThreeNumbersSplit(s[1..]);
      assert s == "v" + Joined(x, y, z);
    } else {
      var x, y, z := ThreeNumbersSplit(s);
      assert s == Joined(x, y, z);
    }
  }

  lemma PatternIsValidVersion(s: string, x: string, y: string, z: string)
    requires IsNumber(x) && IsNumber(y) && IsNumber(z)
    requires s == Joined(x, y, z) || s == "v" + Joined(x, y, z)
    ensures IsValidVersion(s)
  {
    var t := Joined(x, y, z);
    ThreeNumbersJoined(x, y, z);
    assert t[0] == x[0];
    if s == t {
      assert !HasPrefix(s, "v") by { assert s[..1] == [x[0]]; }
    } else {
      assert s[..1] == "v" && s[1..] == t;
    }
  }

  /** The recogniser accepts exactly the strings of the pattern `^v?\d+\.\d+\.\d+$`. */
  lemma ValidVersionMatchesPattern(s: string)
    ensures IsValidVersion(s) <==> MatchesVersionPattern(s)
  {
    if IsValidVersion(s) {
      ValidVersionHasPattern(s);
    }
    forall x, y, z | IsNumber(x) && IsNumber(y) && IsNumber(z) &&
      (s == Joined(x, y, z) || s == "v" + Joined(x, y, z))
      ensures IsValidVersion(s)
    {
      PatternIsValidVersion(s, x, y, z);
    }
  }

  /**
   * The comparison version is the target with at most one leading `v` removed,
   * and it is itself three dotted numbers with no `v` left.
   */
  lemma CleanVersionOfValid(version: string)
    requires IsValidVersion(version)
    ensures version == CleanVersion(version) || version == "v" + CleanVersion(version)
    ensures DottedNumbers(CleanVersion(version), 3)
    ensures !HasPrefix(CleanVersion(version), "v")
  {
    var clean := CleanVersion(version);
    ValidVersionBody(version);
    assert clean == if HasPrefix(version, "v") then version[1..] else version;
    assert LeadingDigits(clean) > 0;
    assert IsDigit(clean[0]);
    assert !HasPrefix(clean, "v") by { assert clean[..1] == [clean[0]]; }
  }

  /** `isDowngrade(current, target)` holds exactly when `current` is lexicographically above `target`. */
  lemma DowngradeIsLexicographicGreater(current: string, target: string)
    ensures IsDowngrade(current, target) <==> LexLess(target, current)
    ensures IsDowngrade(current, target) ==> current != target && !IsDowngrade(target, current)
  {
    CompareIsLexicographic(current, target);
    CompareIsLexicographic(target, current);
  }

  /** As written, a move from 1.9.0 to 1.10.0 counts as a downgrade. */
  lemma MinorTenIsADowngradeFromNine()
    ensures IsValidVersion("1.9.0") && IsValidVersion("1.10.0")
    ensures IsDowngrade("1.9.0", "1.10.0")
  {
    assert LeadingDigits("1.9.0") == 1;
    assert LeadingDigits("9.0") == 1;
    assert LeadingDigits("0") == 1;
    assert LeadingDigits("1.10.0") == 1;
    assert LeadingDigits("10.0") == 2;
    assert "1.9.0"[2..] == "9.0" && "9.0"[2..] == "0";
    assert "1.10.0"[2..] == "10.0" && "10.0"[3..] == "0";
  }

  /** As written, the default rehearsal version 1.33.3 sits above a valid target of 1.33.10. */
  lemma PatchTenIsADowngradeFromThree()
    ensures IsValidVersion("1.33.10")
    ensures IsDowngrade("1.33.3", "1.33.10")
  {
    assert LeadingDigits("1.33.10") == 1;
    assert LeadingDigits("33.10") == 2;
    assert LeadingDigits("10") == 2;
    assert "1.33.10"[2..] == "33.10" && "33.10"[3..] == "10";
  }

  /** A minor-version step back, 1.34.0 to 1.33.2, counts as a downgrade of a valid target. */
  lemma MinorStepBackIsADowngrade()
    ensures IsValidVersion("1.33.2")
    ensures IsDowngrade("1.34.0", "1.33.2")
  {
    assert LeadingDigits("1.33.2") == 1;
    assert LeadingDigits("33.2") == 2;
    assert LeadingDigits("2") == 1;
    assert "1.33.2"[2..] == "33.2" && "33.2"[3..] == "2";
  }
}
