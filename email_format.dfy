/**
  The email format check of the oracle handler: the regular expression
  `^[^\s@]+@[^\s@]+\.[^\s@]+$` applied with `RegExp.prototype.test`.

  `Matches` reads the pattern literally (three runs of the class `[^\s@]`
  joined by `@` and a literal `.`, anchored at both ends); `ValidEmail`
  states the same language structurally. `MatchesIffValidEmail` proves the
  two agree on every string.
*/
module EmailFormat {

  /** ECMAScript `\s`: the WhiteSpace and LineTerminator code points. */
  predicate IsSpace(c: char)
  {
    c == '\t' || c == '\n' || c == '\U{000B}' || c == '\U{000C}' || c == '\r' ||
    c == ' ' || c == '\U{00A0}' || c == '\U{1680}' ||
    ('\U{2000}' <= c <= '\U{200A}') ||
    c == '\U{2028}' || c == '\U{2029}' || c == '\U{202F}' || c == '\U{205F}' ||
    c == '\U{3000}' || c == '\U{FEFF}'
  }

  /** The character class `[^\s@]`. */
  predicate InClass(c: char)
  {
    c != '@' && !IsSpace(c)
  }

  /** `[^\s@]+` matching the whole of `s`. */
  predicate Run(s: string)
  {
    |s| > 0 && forall k | 0 <= k < |s| :: InClass(s[k])
  }

  /** The `@` and `.` that split a match, with the runs around them. */
  predicate SplitAt(s: string, i: int, j: int)
  {
    0 < i && i + 1 < j && j + 1 < |s| &&
    s[i] == '@' && s[j] == '.' && Run(s[..i]) && Run(s[i + 1..j]) && Run(s[j + 1..])
  }

  /**
    The regular expression test: some `@` at index `i` and `.` at index `j`
    cut `s` into three non-empty runs of `[^\s@]`.
  */
  predicate Matches(s: string)
  {
    exists i, j | 0 <= i < |s| && 0 <= j < |s| :: SplitAt(s, i, j)
  }

  /** `d` has a `.` that is neither its first nor its last character. */
  predicate HasInnerDot(d: string)
  {
    exists j | 0 < j < |d| - 1 :: d[j] == '.'
  }

  /**
    The accepted addresses described structurally: exactly one `@`, no
    whitespace, a non-empty part before the `@`, and a part after it with
    an inner `.`.
  */
  predicate ValidEmail(s: string)
  {
    multiset(s)['@'] == 1 &&
    (forall k | 0 <= k < |s| :: !IsSpace(s[k])) &&
    exists i | 0 < i < |s| :: s[i] == '@' && HasInnerDot(s[i + 1..])
  }

  /** A run of the class holds no `@`. */
  lemma RunHasNoAt(s: string)
    requires Run(s)
    ensures multiset(s)['@'] == 0
  {
  }

  /** A slice made only of class characters, and not empty, is a run. */
  lemma SliceIsRun(s: string, lo: int, hi: int)
    requires 0 <= lo < hi <= |s|
    requires forall k | lo <= k < hi :: InClass(s[k])
    ensures Run(s[lo..hi])
  {
  }

  /** Two distinct `@` positions give a count of at least two. */
  lemma TwoAts(s: string, a: int, b: int)
    requires 0 <= a < b < |s| && s[a] == '@' && s[b] == '@'
    ensures multiset(s)['@'] >= 2
  {
    assert s == s[..a] + [s[a]] + s[a + 1..b] + [s[b]] + s[b + 1..];
  }

  /** A split match holds exactly one `@`. */
  lemma SplitHasOneAt(s: string, i: int, j: int)
    requires SplitAt(s, i, j)
    ensures multiset(s)['@'] == 1
  {
    var a, b, c := s[..i], s[i + 1..j], s[j + 1..];
    assert s == a + [s[i]] + b + [s[j]] + c;
    RunHasNoAt(a);
    RunHasNoAt(b);
    RunHasNoAt(c);
  }

  /** A split match holds no whitespace. */
  lemma SplitHasNoSpace(s: string, i: int, j: int)
    requires SplitAt(s, i, j)
    ensures forall k | 0 <= k < |s| :: !IsSpace(s[k])
  {
  }

  /** Every string the regular expression accepts is structurally valid. */
  lemma MatchesImpliesValidEmail(s: string)
    requires Matches(s)
    ensures ValidEmail(s)
  {
    var i, j :| SplitAt(s, i, j);
    SplitHasOneAt(s, i, j);
    SplitHasNoSpace(s, i, j);
    assert s[i + 1..][j - i - 1] == '.';
  }

  /** Every structurally valid string is accepted by the regular expression. */
  lemma ValidEmailImpliesMatches(s: string)
    requires ValidEmail(s)
    ensures Matches(s)
  {
    var i :| 0 < i < |s| && s[i] == '@' && HasInnerDot(s[i + 1..]);
    var d := s[i + 1..];
    var jd :| 0 < jd < |d| - 1 && d[jd] == '.';
    var j := i + 1 + jd;
    assert s[j] == '.';
    forall k | 0 <= k < |s| && k != i ensures InClass(s[k]) {
      if s[k] == '@' {
        if k < i { TwoAts(s, k, i); } else { TwoAts(s, i, k); }
      }
    }
    SliceIsRun(s, 0, i);
    SliceIsRun(s, i + 1, j);
    SliceIsRun(s, j + 1, |s|);
    assert s[..i] == s[0..i];
    assert SplitAt(s, i, j);
  }

  /** The regular expression accepts exactly the structurally valid addresses. */
  lemma MatchesIffValidEmail(s: string)
    ensures Matches(s) <==> ValidEmail(s)
  {
    if Matches(s) { MatchesImpliesValidEmail(s); }
    if ValidEmail(s) { ValidEmailImpliesMatches(s); }
  }

  /** The shapes the form's users are expected to type are accepted. */
  lemma AcceptsExamples()
    ensures Matches("user@domain.com")
    ensures Matches("a@b.c.d")
    ensures Matches("ana@x.com")
  {
    assert SplitAt("user@domain.com", 4, 11);
    assert SplitAt("a@b.c.d", 1, 3);
    assert SplitAt("ana@x.com", 3, 5);
  }

  /** An address with no `.` after its `@` is refused. */
  lemma RejectsMissingDot()
    ensures !Matches("user@domain")
  {
  }

  /** A string with no `@` at all is refused. */
  lemma RejectsMissingAt()
    ensures !Matches("not-an-email")
  {
  }

  /** An address with two `@` is refused. */
  lemma RejectsTwoAts()
    ensures !Matches("a@b@c.d")
  {
    var s := "a@b@c.d";
    if Matches(s) {
      MatchesImpliesValidEmail(s);
      TwoAts(s, 1, 3);
    }
  }

  /** An address with a space in it is refused. */
  lemma RejectsSpace()
    ensures !Matches("user name@domain.com")
  {
    var s := "user name@domain.com";
    if Matches(s) {
      MatchesImpliesValidEmail(s);
    }
  }

  /** An empty part before the `@` is refused. */
  lemma RejectsEmptyLocalPart()
    ensures !Matches("@domain.com")
  {
  }

  /** A `.` right after the `@` is refused. */
  lemma RejectsEmptyDomainLabel()
    ensures !Matches("user@.com")
  {
  }

  /** A `.` at the very end is refused. */
  lemma RejectsEmptyTopLabel()
    ensures !Matches("user@domain.")
  {
  }
}
