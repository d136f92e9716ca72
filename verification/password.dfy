/**
 * The login form's password predicate, `validatePassword`, which is
 * `/^(?=.*[A-Z])(?=.*\d).{8,}$/.test(password)`.
 *
 * A JavaScript string is a sequence of UTF-16 code units, and the pattern has
 * neither the `u`, `s`, `m` nor `i` flag, so (ECMA-262, section 22.2):
 * `.` matches any one code unit except a line terminator, `[A-Z]` and `\d`
 * are the ASCII ranges, `{8,}` counts code units, `^` holds only at index 0
 * and `$` only at the end of the input.
 *
 * The pattern is modelled as the backtracking matcher the standard defines
 * (`ValidatePassword`), and independently as the rule its comment states
 * (`PasswordRule`); `ExecMeaning` proves the two agree.
 */
module Password {

  /** One UTF-16 code unit. */
  type CodeUnit = c: int | 0 <= c < 0x1_0000

  /** A JavaScript string value. */
  type JsString = seq<CodeUnit>

  /** LineTerminator of ECMA-262 section 12.3: LF, CR, LINE SEPARATOR, PARAGRAPH SEPARATOR. */
  predicate IsLineTerminator(c: CodeUnit)
  {
    c == 0x0A || c == 0x0D || c == 0x2028 || c == 0x2029
  }

  /** The class `[A-Z]`. */
  predicate IsAsciiUpper(c: CodeUnit)
  {
    0x41 <= c <= 0x5A
  }

  /** The class escape `\d`. */
  predicate IsAsciiDigit(c: CodeUnit)
  {
    0x30 <= c <= 0x39
  }

  /** The atom `.` without the `s` flag. */
  predicate MatchesDot(c: CodeUnit)
  {
    !IsLineTerminator(c)
  }

  /** The minimum of the quantifier `{8,}`. */
  const MinLength: nat := 8

  /** The two classes that end the pattern's lookaheads. */
  datatype CharClass = UpperRange | DigitEscape

  predicate InClass(k: CharClass, c: CodeUnit)
  {
    match k
    case UpperRange => IsAsciiUpper(c)
    case DigitEscape => IsAsciiDigit(c)
  }

  /** No line terminator among `p[lo..hi]`. */
  predicate NoLineTerminatorIn(p: JsString, lo: nat, hi: nat)
    requires lo <= hi <= |p|
  {
    forall m :: lo <= m < hi ==> !IsLineTerminator(p[m])
  }

  /**
   * The body of a lookahead `(?=.*C)` tried at index `i`: the greedy `.*`
   * first tries to take one more code unit, and on failure hands over to the
   * class `C`, which must match the code unit at the current index.
   */
  predicate DotStarThenClass(p: JsString, i: nat, k: CharClass)
    requires i <= |p|
    decreases |p| - i
  {
    i < |p| &&
    ((MatchesDot(p[i]) && DotStarThenClass(p, i + 1, k)) || InClass(k, p[i]))
  }

  /**
   * `.{8,}$` tried at index `i` after `count` repetitions of `.`: below the
   * minimum the atom must match; from the minimum on, the greedy quantifier
   * tries one more repetition first and otherwise hands over to `$`.
   */
  predicate DotRepeatThenEnd(p: JsString, i: nat, count: nat)
    requires i <= |p|
    decreases |p| - i
  {
    var more := i < |p| && MatchesDot(p[i]) && DotRepeatThenEnd(p, i + 1, count + 1);
    if count < MinLength then more else more || i == |p|
  }

  /**
   * The whole pattern tried at index `i`: `^` (no `m` flag, so only index 0),
   * then the two lookaheads, which consume nothing, then `.{8,}$`.
   */
  predicate MatchAt(p: JsString, i: nat)
    requires i <= |p|
  {
    && i == 0
    && DotStarThenClass(p, i, UpperRange)
    && DotStarThenClass(p, i, DigitEscape)
    && DotRepeatThenEnd(p, i, 0)
  }

  /**
   * RegExpBuiltinExec for a pattern with neither `g` nor `y`: try each start
   * index from `i` up to and including the length of the input.
   */
  predicate ExecFrom(p: JsString, i: nat)
    decreases |p| + 1 - i
  {
    i <= |p| && (MatchAt(p, i) || ExecFrom(p, i + 1))
  }

  /** `validatePassword(password)`, i.e. `regex.test(password)`. */
  function ValidatePassword(p: JsString): (ok: bool)
    ensures ok <==> PasswordRule(p)
  {
    ExecMeaning(p);
    ExecFrom(p, 0)
  }

  /** The rule the pattern is meant to express, stated without any matching. */
  predicate PasswordRule(p: JsString)
  {
    && |p| >= MinLength
    && (exists i :: 0 <= i < |p| && IsAsciiUpper(p[i]))
    && (exists i :: 0 <= i < |p| && IsAsciiDigit(p[i]))
    && (forall i :: 0 <= i < |p| ==> !IsLineTerminator(p[i]))
  }

  /** A lookahead `(?=.*C)` at `i` succeeds iff `C` occurs before the first line terminator from `i` on. */
  lemma {:induction false} DotStarThenClassMeaning(p: JsString, i: nat, k: CharClass)
    requires i <= |p|
    ensures DotStarThenClass(p, i, k) <==>
              exists j :: i <= j < |p| && InClass(k, p[j]) && NoLineTerminatorIn(p, i, j)
    decreases |p| - i
  {
    if i < |p| {
      DotStarThenClassMeaning(p, i + 1, k);
      if DotStarThenClass(p, i, k) {
        if InClass(k, p[i]) {
          assert NoLineTerminatorIn(p, i, i);
        } else {
          var j :| i + 1 <= j < |p| && InClass(k, p[j]) && NoLineTerminatorIn(p, i + 1, j);
          assert NoLineTerminatorIn(p, i, j);
        }
      }
      if exists j :: i <= j < |p| && InClass(k, p[j]) && NoLineTerminatorIn(p, i, j) {
        var j :| i <= j < |p| && InClass(k, p[j]) && NoLineTerminatorIn(p, i, j);
        if j > i {
          assert !IsLineTerminator(p[i]);
          assert NoLineTerminatorIn(p, i + 1, j);
        }
      }
    }
  }

  /** `.{8,}$` at `i` after `count` repetitions succeeds iff enough code units remain and none is a line terminator. */
  lemma {:induction false} DotRepeatThenEndMeaning(p: JsString, i: nat, count: nat)
    requires i <= |p|
    ensures DotRepeatThenEnd(p, i, count) <==>
              count + (|p| - i) >= MinLength && NoLineTerminatorIn(p, i, |p|)
    decreases |p| - i
  {
    if i < |p| {
      DotRepeatThenEndMeaning(p, i + 1, count + 1);
      if NoLineTerminatorIn(p, i, |p|) {
        assert NoLineTerminatorIn(p, i + 1, |p|);
      }
      if MatchesDot(p[i]) && NoLineTerminatorIn(p, i + 1, |p|) {
        assert NoLineTerminatorIn(p, i, |p|);
      }
    }
  }

  /** Because of `^`, no start index after 0 can match. */
  lemma {:induction false} ExecOnlyAtStart(p: JsString, i: nat)
    requires 0 < i
    ensures !ExecFrom(p, i)
    decreases |p| + 1 - i
  {
    if i <= |p| {
      ExecOnlyAtStart(p, i + 1);
    }
  }

  /** Running the pattern from index 0 accepts exactly the passwords the rule describes. */
  lemma ExecMeaning(p: JsString)
    ensures ExecFrom(p, 0) <==> PasswordRule(p)
  {
    ExecOnlyAtStart(p, 1);
    DotStarThenClassMeaning(p, 0, UpperRange);
    DotStarThenClassMeaning(p, 0, DigitEscape);
    DotRepeatThenEndMeaning(p, 0, 0);
    if PasswordRule(p) {
      var u :| 0 <= u < |p| && IsAsciiUpper(p[u]);
      var d :| 0 <= d < |p| && IsAsciiDigit(p[d]);
      assert InClass(UpperRange, p[u]) && NoLineTerminatorIn(p, 0, u);
      assert InClass(DigitEscape, p[d]) && NoLineTerminatorIn(p, 0, d);
    }
    if ExecFrom(p, 0) {
      assert MatchAt(p, 0);
      var u :| 0 <= u < |p| && InClass(UpperRange, p[u]) && NoLineTerminatorIn(p, 0, u);
      var d :| 0 <= d < |p| && InClass(DigitEscape, p[d]) && NoLineTerminatorIn(p, 0, d);
      assert IsAsciiUpper(p[u]) && IsAsciiDigit(p[d]);
    }
  }

  /** The length bound is inclusive: eight code units with an uppercase letter and a digit are enough. */
  lemma EightUnitsAccepted(p: JsString, u: nat, d: nat)
    requires |p| == MinLength
    requires u < |p| && IsAsciiUpper(p[u])
    requires d < |p| && IsAsciiDigit(p[d])
    requires forall i :: 0 <= i < |p| ==> !IsLineTerminator(p[i])
    ensures ValidatePassword(p)
  {
  }

  /** Anything shorter than eight code units is rejected, whatever it contains. */
  lemma ShortRejected(p: JsString)
    requires |p| < MinLength
    ensures !ValidatePassword(p)
  {
  }

  /** A line terminator anywhere, even a trailing newline, makes the pattern fail. */
  lemma LineTerminatorRejected(p: JsString, t: nat)
    requires t < |p| && IsLineTerminator(p[t])
    ensures !ValidatePassword(p)
  {
  }

  /** The length counts code units: "A1" followed by three astral characters (five characters, eight units) passes. */
  lemma SurrogatePairsCountTwice()
    ensures ValidatePassword([0x41, 0x31, 0xD83D, 0xDE00, 0xD83D, 0xDE00, 0xD83D, 0xDE00])
  {
  }
}
