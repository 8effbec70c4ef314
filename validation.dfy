/**
 * The field validators of the credential form and the CNIC normaliser.
 *
 * The source uses three library facilities here: `String.prototype.includes`,
 * the regular expression `/^\d{13}$/` and `replace(/[^\d]/g, "")`. Each is
 * modelled by a small recursive definition over `seq<char>`, and a lemma
 * connects it to a declarative statement of what it accepts. In a JavaScript
 * regular expression `\d` is exactly `[0-9]`, with or without the `u` flag.
 */
module Validation {

  /** `\d`: an ASCII decimal digit. */
  predicate IsDigit(c: char) {
    '0' <= c <= '9'
  }

  /** Every character of `s` is a decimal digit. */
  predicate AllDigits(s: string) {
    forall i :: 0 <= i < |s| ==> IsDigit(s[i])
  }

  // ---------------------------------------------------------------------------
  // String.prototype.includes

  /** `t` is a prefix of `s`. */
  predicate StartsWith(s: string, t: string) {
    |t| <= |s| && s[..|t|] == t
  }

  /** `s.includes(t)`: scan `s` from the left for an occurrence of `t`. */
  predicate Includes(s: string, t: string)
    decreases |s|
  {
    if StartsWith(s, t) then true
    else if s == [] then false
    else Includes(s[1..], t)
  }

  /** `t` occurs in `s` starting at position `i`. */
  ghost predicate OccursAt(s: string, t: string, i: int) {
    0 <= i && i + |t| <= |s| && s[i..i + |t|] == t
  }

  /** The scan finds `t` exactly when `t` occurs somewhere in `s`. */
  lemma {:induction false} IncludesIff(s: string, t: string)
    ensures Includes(s, t) <==> exists i :: OccursAt(s, t, i)
    decreases |s|
  {
    if StartsWith(s, t) {
      assert s[0..0 + |t|] == s[..|t|];
      assert OccursAt(s, t, 0);
    } else if s != [] {
      IncludesIff(s[1..], t);
      forall i | OccursAt(s[1..], t, i) ensures OccursAt(s, t, i + 1) {
        assert s[1..][i..i + |t|] == s[i + 1..i + 1 + |t|];
      }
      forall i | OccursAt(s, t, i) ensures OccursAt(s[1..], t, i - 1) {
        if i == 0 {
          assert false;
        }
        assert s[1..][i - 1..i - 1 + |t|] == s[i..i + |t|];
      }
    }
  }

  /** A one-character search string occurs exactly where that character stands. */
  lemma IncludesChar(s: string, c: char)
    ensures Includes(s, [c]) <==> exists i :: 0 <= i < |s| && s[i] == c
  {
    IncludesIff(s, [c]);
    forall i | OccursAt(s, [c], i) ensures 0 <= i < |s| && s[i] == c {
      assert s[i..i + 1][0] == s[i];
    }
    forall i | 0 <= i < |s| && s[i] == c ensures OccursAt(s, [c], i) {
      assert s[i..i + 1] == [s[i]];
    }
  }

  // ---------------------------------------------------------------------------
  // The three validity flags

  /** The e-mail flag (Register.jsx:29): nothing but the presence of an '@'. */
  function EmailValid(email: string): (r: bool)
    ensures r <==> exists i :: 0 <= i < |email| && email[i] == '@'
  {
    IncludesChar(email, '@');
    Includes(email, "@")
  }

  /** `^\d{n}$`: the whole of `s` is exactly `n` repetitions of `\d`. */
  predicate MatchesDigits(s: string, n: nat)
    decreases n
  {
    if n == 0 then s == []
    else |s| > 0 && IsDigit(s[0]) && MatchesDigits(s[1..], n - 1)
  }

  /** The anchored regular expression accepts exactly the all-digit strings of length `n`. */
  lemma {:induction false} MatchesDigitsIff(s: string, n: nat)
    ensures MatchesDigits(s, n) <==> |s| == n && AllDigits(s)
    decreases n
  {
    if n > 0 && |s| > 0 {
      MatchesDigitsIff(s[1..], n - 1);
      if |s| == n && AllDigits(s) {
        assert AllDigits(s[1..]) by {
          forall i | 0 <= i < |s[1..]| ensures IsDigit(s[1..][i]) {
            assert s[1..][i] == s[i + 1];
          }
        }
      }
      if MatchesDigits(s, n) {
        forall i | 0 <= i < |s| ensures IsDigit(s[i]) {
          if i > 0 { assert s[i] == s[1..][i - 1]; }
        }
      }
    }
  }

  /** The number of digits of a CNIC. */
  const CnicLength: nat := 13

  /**
   * The CNIC flag (Register.jsx:30): a length test for 13 conjoined with the
   * anchored 13-digit pattern. The length conjunct is implied by the pattern.
   */
  function CnicValid(cnic: string): (r: bool)
    ensures r <==> |cnic| == CnicLength && AllDigits(cnic)
    ensures r <==> MatchesDigits(cnic, CnicLength)
  {
    MatchesDigitsIff(cnic, CnicLength);
    |cnic| == CnicLength && MatchesDigits(cnic, CnicLength)
  }

  /** The password flag (Register.jsx:31): strict string equality, character by character. */
  function PasswordsMatch(password: string, confirmPassword: string): (r: bool)
    ensures r <==> |password| == |confirmPassword| &&
                   forall i :: 0 <= i < |password| ==> password[i] == confirmPassword[i]
  {
    password == confirmPassword
  }

  // ---------------------------------------------------------------------------
  // The CNIC normaliser: value.replace(/[^\d]/g, "")

  /** Every non-digit of `s` removed; the digits keep their order. No length cap. */
  function DigitsOnly(s: string): (r: string)
    ensures AllDigits(r)
    ensures |r| <= |s|
    decreases |s|
  {
    if s == [] then []
    else
      var rest := DigitsOnly(s[1..]);
      if IsDigit(s[0]) then [s[0]] + rest else rest
  }

  /** The normaliser works character by character: it distributes over concatenation. */
  lemma {:induction false} DigitsOnlyAppend(a: string, b: string)
    ensures DigitsOnly(a + b) == DigitsOnly(a) + DigitsOnly(b)
    decreases |a|
  {
    if a == [] {
      assert a + b == b;
    } else {
      assert (a + b)[1..] == a[1..] + b;
      DigitsOnlyAppend(a[1..], b);
    }
  }

  /** `r` can be obtained from `s` by deleting characters (order kept). */
  ghost predicate IsSubsequence(r: string, s: string)
    decreases |s|
  {
    if r == [] then true
    else if s == [] then false
    else (r[0] == s[0] && IsSubsequence(r[1..], s[1..])) || IsSubsequence(r, s[1..])
  }

  /** The stored CNIC is the input with characters deleted, never reordered. */
  lemma {:induction false} DigitsOnlyIsSubsequence(s: string)
    ensures IsSubsequence(DigitsOnly(s), s)
    decreases |s|
  {
    if s != [] {
      DigitsOnlyIsSubsequence(s[1..]);
      var rest := DigitsOnly(s[1..]);
      if IsDigit(s[0]) {
        assert ([s[0]] + rest)[1..] == rest;
      } else if rest != [] {
        assert IsSubsequence(rest, s[1..]);
      }
    }
  }

  /** No digit is dropped and no non-digit survives: the digit counts are those of the input. */
  lemma {:induction false} DigitsOnlyCounts(s: string, c: char)
    ensures multiset(DigitsOnly(s))[c] == if IsDigit(c) then multiset(s)[c] else 0
    decreases |s|
  {
    if s != [] {
      DigitsOnlyCounts(s[1..], c);
      assert s == [s[0]] + s[1..];
      assert multiset(s) == multiset([s[0]]) + multiset(s[1..]);
      if IsDigit(s[0]) {
        assert multiset([s[0]] + DigitsOnly(s[1..])) == multiset([s[0]]) + multiset(DigitsOnly(s[1..]));
      }
    }
  }

  /** An all-digit string is a fixed point of the normaliser, and only such a string is. */
  lemma {:induction false} DigitsOnlyFixpoint(s: string)
    ensures DigitsOnly(s) == s <==> AllDigits(s)
    decreases |s|
  {
    if s != [] && AllDigits(s) {
      assert AllDigits(s[1..]) by {
        forall i | 0 <= i < |s[1..]| ensures IsDigit(s[1..][i]) {
          assert s[1..][i] == s[i + 1];
        }
      }
      DigitsOnlyFixpoint(s[1..]);
      assert [s[0]] + s[1..] == s;
    }
  }

  /** Normalising an already normalised CNIC leaves it unchanged. */
  lemma DigitsOnlyIdempotent(s: string)
    ensures DigitsOnly(DigitsOnly(s)) == DigitsOnly(s)
  {
    DigitsOnlyFixpoint(DigitsOnly(s));
  }

  /** Every digit of the input survives, so a CNIC longer than 13 digits is stored whole. */
  lemma DigitsOnlyKeepsDigitStrings(s: string)
    requires AllDigits(s)
    ensures |DigitsOnly(s)| == |s|
    ensures |s| > CnicLength ==> !CnicValid(DigitsOnly(s))
  {
    DigitsOnlyFixpoint(s);
  }

  /** Worked examples of the e-mail check. */
  lemma EmailExamples()
    ensures EmailValid("a@b") && !EmailValid("ab.com")
  {
    assert "a@b"[1] == '@';
  }

  /** Worked examples of the CNIC check. */
  lemma CnicExamples()
    ensures CnicValid("1234567890123") && !CnicValid("12345") && !CnicValid("12345678901a3")
  {
    var bad := "12345678901a3";
    assert !IsDigit(bad[11]);
  }

  /** Worked examples of the normaliser: a letter is removed, digits are kept. */
  lemma NormaliserExamples()
    ensures DigitsOnly("12a3") == "123" && DigitsOnly("123") == "123"
  {
    assert DigitsOnly("3") == "3";
    assert DigitsOnly("a3") == "3";
    assert DigitsOnly("2a3") == "23";
  }
}
