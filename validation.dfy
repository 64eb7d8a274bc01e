/**
 * Form validation shared by the screens: an ordered list of checks of which
 * the first failing one decides the message shown, and the two field
 * validators that RegisterScreen and ForgotPasswordScreen both declare
 * (identically) for e-mail addresses and passwords.
 */
module Validation {
  import opened Common
  import opened Text

  /** One validation step of a form: whether it passes, and the error it reports if not. */
  datatype Check<E> = Check(passes: bool, error: E)

  /** Check `i` is the first one that fails. */
  ghost predicate FailsFirstAt<E>(checks: seq<Check<E>>, i: int) {
    0 <= i < |checks| && !checks[i].passes && forall j | 0 <= j < i :: checks[j].passes
  }

  /**
   * Runs the checks in order and stops at the first that fails, as the
   * screens' chains of `if (...) { setError(...); return false; }` do.
   */
  function FirstFailing<E>(checks: seq<Check<E>>): (r: Option<E>)
    ensures r.None? <==> forall i | 0 <= i < |checks| :: checks[i].passes
    ensures r.Some? ==> exists i :: FailsFirstAt(checks, i) && checks[i].error == r.value
  {
    if checks == [] then
      None
    else if !checks[0].passes then
      assert FailsFirstAt(checks, 0);
      Some(checks[0].error)
    else
      var r := FirstFailing(checks[1..]);
      assert r.Some? ==> exists i :: FailsFirstAt(checks, i) && checks[i].error == r.value by {
        if r.Some? {
          var i :| FailsFirstAt(checks[1..], i) && checks[1..][i].error == r.value;
          assert FailsFirstAt(checks, i + 1);
        }
      }
      r
  }

  /** Whichever check fails first is the one reported. */
  lemma {:induction false} FirstFailingReportsFirst<E>(checks: seq<Check<E>>, i: int)
    requires FailsFirstAt(checks, i)
    ensures FirstFailing(checks) == Some(checks[i].error)
  {
    if i > 0 {
      assert checks[0].passes;
      assert FailsFirstAt(checks[1..], i - 1);
      FirstFailingReportsFirst(checks[1..], i - 1);
    }
  }

  /** Of three checks, the second or the third is reported when it is the first to fail. */
  lemma SecondOrThirdFailsFirst<E>(checks: seq<Check<E>>)
    requires |checks| == 3
    ensures checks[0].passes && !checks[1].passes ==> FirstFailing(checks) == Some(checks[1].error)
    ensures checks[0].passes && checks[1].passes && !checks[2].passes ==> FirstFailing(checks) == Some(checks[2].error)
  {
    if checks[0].passes && !checks[1].passes {
      FirstFailingReportsFirst(checks, 1);
    } else if checks[0].passes && checks[1].passes && !checks[2].passes {
      FirstFailingReportsFirst(checks, 2);
    }
  }

  // ------------------------------------------------------------- e-mail

  /** Every character matches `\S`. */
  predicate AllNonSpace(s: string) {
    forall i | 0 <= i < |s| :: !IsWhiteSpace(s[i])
  }

  /**
   * The regular expression `\S+@\S+\.\S+` matches the piece `s[p..t]`:
   * `s[p..q]`, `s[q+1..r]` and `s[r+1..t]` are non-empty runs of non-space,
   * `s[q]` is `@` and `s[r]` is `.`.
   */
  ghost predicate PatternMatchesAt(s: string, p: int, q: int, r: int, t: int) {
    && 0 <= p < q && q + 1 < r && r + 1 < t <= |s|
    && AllNonSpace(s[p..q]) && s[q] == '@'
    && AllNonSpace(s[q + 1..r]) && s[r] == '.'
    && AllNonSpace(s[r + 1..t])
  }

  /** `RegExp.prototype.test` with the unanchored pattern: some piece of `s` matches. */
  ghost predicate EmailPatternMatches(s: string) {
    exists p, q, r, t :: PatternMatchesAt(s, p, q, r, t)
  }

  /**
   * An `@` at `q` and a later `.` at `r` with non-space on either side and
   * only non-space between them: the shortest piece the pattern can match.
   */
  predicate AtDotPair(s: string, q: int, r: int) {
    && 0 < q && q + 1 < r && r + 1 < |s|
    && s[q] == '@' && s[r] == '.'
    && !IsWhiteSpace(s[q - 1]) && AllNonSpace(s[q + 1..r]) && !IsWhiteSpace(s[r + 1])
  }

  /** `validateEmail`: the address passes `/\S+@\S+\.\S+/.test`. */
  function ValidateEmail(email: string): (ok: bool)
    ensures ok <==> EmailPatternMatches(email)
  {
    EmailPatternIsAtDotPair(email);
    exists q, r | 0 < q < |email| && 0 < r < |email| :: AtDotPair(email, q, r)
  }

  /** A match of the pattern exists exactly when an `@`/`.` pair of the shape above does. */
  lemma EmailPatternIsAtDotPair(s: string)
    ensures EmailPatternMatches(s) <==> exists q, r :: AtDotPair(s, q, r)
  {
    if p, q, r, t :| PatternMatchesAt(s, p, q, r, t) {
      assert s[q - 1] == s[p..q][q - 1 - p];
      assert s[r + 1] == s[r + 1..t][0];
      assert AtDotPair(s, q, r);
    }
    if q, r :| AtDotPair(s, q, r) {
      assert PatternMatchesAt(s, q - 1, q, r, r + 2);
    }
  }

  const MinPasswordLength: nat := 8

  /** `validatePassword`: at least eight characters. */
  function ValidatePassword(password: string): (ok: bool)
    ensures ok <==> |password| >= MinPasswordLength
  {
    |password| >= MinPasswordLength
  }

  /** Concrete inputs: the pattern is unanchored and needs a dot after the `@`. */
  lemma ValidatorExamples()
    ensures ValidateEmail("dev@example.com")
    ensures ValidateEmail("mail me at x@y.z please")
    ensures !ValidateEmail("user@example")
    ensures !ValidateEmail("@example.com")
    ensures !ValidatePassword("short") && ValidatePassword("longenough1")
  {
    assert AtDotPair("dev@example.com", 3, 11);
    assert AtDotPair("mail me at x@y.z please", 12, 14);
    var s := "user@example";
    forall q, r ensures !AtDotPair(s, q, r) {
      if 0 <= r < |s| {
        assert s[r] != '.';
      }
    }
    var u := "@example.com";
    forall q, r ensures !AtDotPair(u, q, r) {
      if 0 < q < |u| {
        assert u[q] != '@';
      }
    }
  }
}
