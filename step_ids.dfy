/**
 * The step-id pattern `^[AGHNPCD]\d+$` of the verification-step schema.
 * In JavaScript `\d` is an ASCII digit 0-9 whatever the flags, and since the
 * regular expression has no `m` flag, `$` anchors at the very end of the
 * input (a trailing newline is not allowed).
 *
 * The pattern appears twice: `ValidId` says what it means, and
 * `MatchesIdPattern` is a finite automaton, read one character at a time,
 * that accepts the same strings as the pattern. `MatchesIdPatternIff` proves the two agree.
 */
module StepIds {

  /** The seven category letters the schema accepts at the head of an id. */
  const CategoryLetters: string := "AGHNPCD"

  predicate IsCategoryLetter(c: char)
  {
    c in CategoryLetters
  }

  predicate IsAsciiDigit(c: char)
  {
    '0' <= c <= '9'
  }

  /** One category letter followed by one or more ASCII digits, and nothing else. */
  predicate ValidId(id: string)
  {
    && |id| >= 2
    && IsCategoryLetter(id[0])
    && forall i :: 1 <= i < |id| ==> IsAsciiDigit(id[i])
  }

  /** States of the anchored matcher: nothing read yet, the letter read, at
      least one digit read (the only accepting state), or no match possible. */
  datatype MatchState = Start | AfterLetter | InDigits | Dead

  function Next(state: MatchState, c: char): MatchState
  {
    match state
    case Start => if IsCategoryLetter(c) then AfterLetter else Dead
    case AfterLetter => if IsAsciiDigit(c) then InDigits else Dead
    case InDigits => if IsAsciiDigit(c) then InDigits else Dead
    case Dead => Dead
  }

  function Run(state: MatchState, s: string): MatchState
    decreases |s|
  {
    if s == [] then state else Run(Next(state, s[0]), s[1..])
  }

  /** The anchored match: the whole input must drive the matcher from `Start`
      to `InDigits`. */
  predicate MatchesIdPattern(id: string)
  {
    Run(Start, id) == InDigits
  }

  lemma {:induction false} RunDead(s: string)
    ensures Run(Dead, s) == Dead
    decreases |s|
  {
    if s != [] {
      RunDead(s[1..]);
    }
  }

  /** From `InDigits`, the rest is accepted iff it is all digits. */
  lemma {:induction false} RunInDigits(s: string)
    ensures Run(InDigits, s) == InDigits <==> forall i :: 0 <= i < |s| ==> IsAsciiDigit(s[i])
    decreases |s|
  {
    if s != [] {
      if IsAsciiDigit(s[0]) {
        RunInDigits(s[1..]);
        assert forall i :: 1 <= i < |s| ==> s[i] == s[1..][i - 1];
      } else {
        RunDead(s[1..]);
      }
    }
  }

  /** The anchored matcher accepts exactly the ids `ValidId` describes. */
  lemma MatchesIdPatternIff(id: string)
    ensures MatchesIdPattern(id) <==> ValidId(id)
  {
    if id == [] {
    } else if !IsCategoryLetter(id[0]) {
      RunDead(id[1..]);
    } else {
      var rest := id[1..];
      assert Run(Start, id) == Run(AfterLetter, rest);
      if rest == [] {
      } else if IsAsciiDigit(rest[0]) {
        assert Run(AfterLetter, rest) == Run(InDigits, rest[1..]);
        RunInDigits(rest[1..]);
        assert forall i :: 2 <= i < |id| ==> id[i] == rest[1..][i - 2];
      } else {
        RunDead(rest[1..]);
      }
    }
  }

  /** Accepted and rejected ids: a letter and digits pass; a bare letter, a
      letter outside the set, a lower-case letter, a trailing non-digit, a
      trailing newline and non-ASCII digits do not. */
  lemma IdExamples()
    ensures MatchesIdPattern("D12") && MatchesIdPattern("A0")
    ensures !MatchesIdPattern("") && !MatchesIdPattern("D") && !MatchesIdPattern("X1")
    ensures !MatchesIdPattern("a1") && !MatchesIdPattern("D1x") && !MatchesIdPattern("D1\n")
    ensures !MatchesIdPattern("D١")
  {
  }
}
