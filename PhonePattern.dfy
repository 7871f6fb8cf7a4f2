/**
  The phone-number pattern of the Person schema, the regular expression
  `^(\d{2,3}-)?\d+$` (no flags: `\d` is an ASCII digit and `$` is the end of
  the input).

  `MatchesPattern` is the pattern read declaratively: all digits, or two or
  three digits, a hyphen and at least one digit. `Matches` is a hand-written
  matcher: a deterministic automaton run over the string. `MatcherCorrect`
  proves the two agree on every string.
*/
module PhonePattern {

  predicate IsDigit(c: char) {
    '0' <= c <= '9'
  }

  predicate AllDigits(s: string) {
    forall i :: 0 <= i < |s| ==> IsDigit(s[i])
  }

  /** `\d+` */
  predicate Digits1(s: string) {
    |s| >= 1 && AllDigits(s)
  }

  /** `\d{k}-\d+`: exactly k digits, a hyphen at index k, one or more digits. */
  predicate PrefixedAt(s: string, k: nat) {
    k + 1 < |s| && AllDigits(s[..k]) && s[k] == '-' && Digits1(s[k + 1..])
  }

  /** `^(\d{2,3}-)?\d+$`, read as the union of its three shapes. */
  predicate MatchesPattern(s: string) {
    Digits1(s) || PrefixedAt(s, 2) || PrefixedAt(s, 3)
  }

  /** States of the matcher, named by what has been read so far. */
  datatype State =
    | Start          // nothing read
    | OneDigit       // d
    | TwoDigits      // dd
    | ThreeDigits    // ddd
    | DigitsOnly     // dddd+, a hyphen can no longer follow
    | AfterHyphen    // dd- or ddd-
    | Subscriber     // dd-d+ or ddd-d+
    | Reject         // no continuation can match

  predicate Accepting(q: State) {
    q.OneDigit? || q.TwoDigits? || q.ThreeDigits? || q.DigitsOnly? || q.Subscriber?
  }

  function Step(q: State, c: char): State {
    match q
    case Start => if IsDigit(c) then OneDigit else Reject
    case OneDigit => if IsDigit(c) then TwoDigits else Reject
    case TwoDigits => if IsDigit(c) then ThreeDigits else if c == '-' then AfterHyphen else Reject
    case ThreeDigits => if IsDigit(c) then DigitsOnly else if c == '-' then AfterHyphen else Reject
    case DigitsOnly => if IsDigit(c) then DigitsOnly else Reject
    case AfterHyphen => if IsDigit(c) then Subscriber else Reject
    case Subscriber => if IsDigit(c) then Subscriber else Reject
    case Reject => Reject
  }

  function Run(q: State, s: string): State
    decreases |s|
  {
    if s == [] then q else Run(Step(q, s[0]), s[1..])
  }

  /** The matcher: the number validator's `test`. */
  predicate Matches(s: string) {
    Accepting(Run(Start, s))
  }

  lemma {:induction false} RejectIsFinal(s: string)
    ensures Run(Reject, s) == Reject
    decreases |s|
  {
    if s != [] {
      RejectIsFinal(s[1..]);
    }
  }

  lemma AllDigitsTail(s: string)
    requires |s| >= 1
    ensures AllDigits(s) <==> IsDigit(s[0]) && AllDigits(s[1..])
  {
    if IsDigit(s[0]) && AllDigits(s[1..]) {
      forall i | 0 <= i < |s| ensures IsDigit(s[i]) {
        if i > 0 { assert s[i] == s[1..][i - 1]; }
      }
    }
  }

  /** From DigitsOnly or Subscriber, exactly all-digit suffixes are accepted. */
  lemma {:induction false} DigitLoop(q: State, s: string)
    requires q.DigitsOnly? || q.Subscriber?
    ensures Accepting(Run(q, s)) <==> AllDigits(s)
    decreases |s|
  {
    if s != [] {
      AllDigitsTail(s);
      if IsDigit(s[0]) {
        DigitLoop(q, s[1..]);
      } else {
        RejectIsFinal(s[1..]);
      }
    }
  }

  lemma {:induction false} AfterHyphenRun(s: string)
    ensures Accepting(Run(AfterHyphen, s)) <==> Digits1(s)
  {
    if s != [] {
      AllDigitsTail(s);
      if IsDigit(s[0]) {
        DigitLoop(Subscriber, s[1..]);
      } else {
        RejectIsFinal(s[1..]);
      }
    }
  }

  /** After three leading digits: more digits, or a hyphen and the subscriber part. */
  lemma {:induction false} ThreeDigitsRun(s: string)
    ensures Accepting(Run(ThreeDigits, s)) <==>
      AllDigits(s) || (|s| >= 1 && s[0] == '-' && Digits1(s[1..]))
  {
    if s != [] {
      AllDigitsTail(s);
      if IsDigit(s[0]) {
        DigitLoop(DigitsOnly, s[1..]);
      } else if s[0] == '-' {
        AfterHyphenRun(s[1..]);
      } else {
        RejectIsFinal(s[1..]);
      }
    }
  }

  lemma {:induction false} TwoDigitsRun(s: string)
    ensures Accepting(Run(TwoDigits, s)) <==>
      AllDigits(s) || (|s| >= 1 && s[0] == '-' && Digits1(s[1..]))
      || (|s| >= 2 && IsDigit(s[0]) && s[1] == '-' && Digits1(s[2..]))
  {
    if s != [] {
      AllDigitsTail(s);
      if IsDigit(s[0]) {
        ThreeDigitsRun(s[1..]);
        if |s| >= 2 { assert s[1..][1..] == s[2..]; }
      } else if s[0] == '-' {
        AfterHyphenRun(s[1..]);
      } else {
        RejectIsFinal(s[1..]);
      }
    }
  }

  lemma {:induction false} OneDigitRun(s: string)
    ensures Accepting(Run(OneDigit, s)) <==>
      AllDigits(s)
      || (|s| >= 2 && IsDigit(s[0]) && s[1] == '-' && Digits1(s[2..]))
      || (|s| >= 3 && IsDigit(s[0]) && IsDigit(s[1]) && s[2] == '-' && Digits1(s[3..]))
  {
    if s != [] {
      AllDigitsTail(s);
      if IsDigit(s[0]) {
        TwoDigitsRun(s[1..]);
        if |s| >= 2 { assert s[1..][1..] == s[2..]; }
        if |s| >= 3 { assert s[1..][2..] == s[3..]; }
      } else {
        RejectIsFinal(s[1..]);
      }
    }
  }

  lemma PrefixedAtUnfold(s: string, k: nat)
    requires k == 2 || k == 3
    ensures PrefixedAt(s, k) <==>
      k + 1 < |s| && (forall i :: 0 <= i < k ==> IsDigit(s[i])) && s[k] == '-' && Digits1(s[k + 1..])
  {
    if k + 1 < |s| {
      assert forall i :: 0 <= i < k ==> s[..k][i] == s[i];
    }
  }

  /** The hand-written matcher accepts exactly the strings the pattern describes. */
  lemma MatcherCorrect(s: string)
    ensures Matches(s) <==> MatchesPattern(s)
  {
    if s != [] {
      AllDigitsTail(s);
      PrefixedAtUnfold(s, 2);
      PrefixedAtUnfold(s, 3);
      if IsDigit(s[0]) {
        OneDigitRun(s[1..]);
        if |s| >= 3 { assert s[1..][2..] == s[3..]; }
        if |s| >= 4 { assert s[1..][3..] == s[4..]; }
      } else {
        RejectIsFinal(s[1..]);
      }
    }
  }

  /**
    In a matching number every character is a digit except at most one
    hyphen, which stands at index 2 or 3: two hyphens, a leading hyphen, a
    hyphen after one or four-plus digits, and any letter are all rejected.
  */
  lemma OnlyOneHyphenAtTwoOrThree(s: string, i: nat)
    requires Matches(s)
    requires i < |s| && !IsDigit(s[i])
    ensures s[i] == '-' && (i == 2 || i == 3)
    ensures forall j :: 0 <= j < |s| && j != i ==> IsDigit(s[j])
  {
    MatcherCorrect(s);
    if PrefixedAt(s, 2) {
      PrefixedAtUnfold(s, 2);
      assert forall j :: 3 <= j < |s| ==> s[j] == s[3..][j - 3];
    } else if PrefixedAt(s, 3) {
      PrefixedAtUnfold(s, 3);
      assert forall j :: 4 <= j < |s| ==> s[j] == s[4..][j - 4];
    }
  }
}
