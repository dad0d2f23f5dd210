/** The checks `User.__init__` applies to its arguments (part3 user.py):
    first name, then last name, then email, stopping at the first failure. */
module UserRules {
  import opened Wrappers
  import opened Values
  import opened Errors

  const MaxNameLength: nat := 50

  // The character classes of the email pattern.
  predicate IsAlnum(c: char) { 'a' <= c <= 'z' || 'A' <= c <= 'Z' || '0' <= c <= '9' }
  /** `[a-zA-Z0-9_.+-]`, the local part. */
  predicate InLocal(c: char) { IsAlnum(c) || c == '_' || c == '.' || c == '+' || c == '-' }
  /** `[a-zA-Z0-9-]`, the domain label before the dot. */
  predicate InLabel(c: char) { IsAlnum(c) || c == '-' }
  /** `[a-zA-Z0-9-.]`, everything after the dot. */
  predicate InTail(c: char) { IsAlnum(c) || c == '-' || c == '.' }

  predicate AllLocal(s: string) { forall k :: 0 <= k < |s| ==> InLocal(s[k]) }
  predicate AllLabel(s: string) { forall k :: 0 <= k < |s| ==> InLabel(s[k]) }
  predicate AllTail(s: string) { forall k :: 0 <= k < |s| ==> InTail(s[k]) }

  /** The language of `^[a-zA-Z0-9_.+-]+@[a-zA-Z0-9-]+\.[a-zA-Z0-9-.]+$`: some
      split of `s` into a non-empty local part, `@`, a non-empty label, `.` and
      a non-empty tail. */
  ghost predicate MatchesEmailPattern(s: string)
  {
    exists i, j :: 0 < i && i + 1 < j && j + 1 < |s| && s[i] == '@' && s[j] == '.' &&
      AllLocal(s[..i]) && AllLabel(s[i + 1..j]) && AllTail(s[j + 1..])
  }

  /** The position of the first `c` in `s`, or `|s|` when there is none. */
  function IndexOf(s: string, c: char): (n: nat)
    ensures n <= |s|
    ensures forall k :: 0 <= k < n ==> s[k] != c
    ensures n < |s| ==> s[n] == c
  {
    if s == [] || s[0] == c then 0 else 1 + IndexOf(s[1..], c)
  }

  /** The matcher: the local part must end at the first `@` (the local class
      has no `@`), and the label at the first `.` after it (the label class
      has no `.`), so no backtracking is needed. */
  predicate EmailMatches(s: string)
  {
    var i := IndexOf(s, '@');
    && 0 < i < |s| && AllLocal(s[..i])
    && var rest := s[i + 1..];
       var j := IndexOf(rest, '.');
       && 0 < j && j + 1 < |rest| && AllLabel(rest[..j]) && AllTail(rest[j + 1..])
  }

  /** The matcher accepts exactly the strings of the pattern's language. */
  lemma EmailMatchesIffPattern(s: string)
    ensures EmailMatches(s) <==> MatchesEmailPattern(s)
  {
    if EmailMatches(s) { MatcherSound(s); }
    if MatchesEmailPattern(s) {
      var i, j :| 0 < i && i + 1 < j && j + 1 < |s| && s[i] == '@' && s[j] == '.' &&
        AllLocal(s[..i]) && AllLabel(s[i + 1..j]) && AllTail(s[j + 1..]);
      MatcherComplete(s, i, j);
    }
  }

  lemma MatcherSound(s: string)
    requires EmailMatches(s)
    ensures MatchesEmailPattern(s)
  {
    var i := IndexOf(s, '@');
    var rest := s[i + 1..];
    var j := IndexOf(rest, '.');
    assert s[i + 1..i + 1 + j] == rest[..j];
    assert s[i + 1 + j + 1..] == rest[j + 1..];
    assert s[i + 1 + j] == '.';
  }

  /** A split the pattern admits is the one the matcher finds. */
  lemma MatcherComplete(s: string, i: nat, j: nat)
    requires 0 < i && i + 1 < j && j + 1 < |s| && s[i] == '@' && s[j] == '.'
    requires AllLocal(s[..i]) && AllLabel(s[i + 1..j]) && AllTail(s[j + 1..])
    ensures EmailMatches(s)
  {
    FirstOccurrence(s, i, '@');
    var rest := s[i + 1..];
    assert rest[..j - i - 1] == s[i + 1..j];
    assert rest[j - i - 1] == s[j] == '.';
    forall k | 0 <= k < j - i - 1 ensures rest[k] != '.' {
      assert rest[k] == s[i + 1..j][k];
    }
    FirstOccurrence(rest, j - i - 1, '.');
    assert rest[j - i..] == s[j + 1..];
  }

  /** `c` at position `n` with no earlier `c` (`c` is in neither the label nor
      the local class) is the first occurrence. */
  lemma FirstOccurrence(s: string, n: nat, c: char)
    requires n < |s| && s[n] == c
    requires forall k :: 0 <= k < n ==> s[k] != c
    ensures IndexOf(s, c) == n
  {
  }

  /** The number of occurrences of `c` in `s`. */
  function Count(s: string, c: char): nat
  {
    if s == [] then 0 else (if s[0] == c then 1 else 0) + Count(s[1..], c)
  }

  lemma {:induction false} CountSplit(s: string, n: nat, c: char)
    requires n <= |s|
    ensures Count(s, c) == Count(s[..n], c) + Count(s[n..], c)
  {
    if n > 0 {
      assert s[..n][1..] == s[1..][..n - 1];
      assert s[n..] == s[1..][n - 1..];
      CountSplit(s[1..], n - 1, c);
    }
  }

  lemma {:induction false} CountAbsent(s: string, c: char)
    requires forall k :: 0 <= k < |s| ==> s[k] != c
    ensures Count(s, c) == 0
  {
    if s != [] { CountAbsent(s[1..], c); }
  }

  /** A consequence of the pattern: an accepted address has exactly one `@`. */
  lemma ValidEmailHasOneAt(s: string)
    requires MatchesEmailPattern(s)
    ensures Count(s, '@') == 1
  {
    var i, j :| 0 < i && i + 1 < j && j + 1 < |s| && s[i] == '@' && s[j] == '.' &&
      AllLocal(s[..i]) && AllLabel(s[i + 1..j]) && AllTail(s[j + 1..]);
    CountSplit(s, i, '@');
    CountAbsent(s[..i], '@');
    var after := s[i + 1..];
    forall k | 0 <= k < |after| ensures after[k] != '@' {
      if k < j - i - 1 { assert after[k] == s[i + 1..j][k]; }
      else if k > j - i - 1 { assert after[k] == s[j + 1..][k - (j - i)]; }
    }
    CountAbsent(after, '@');
    assert s[i..][1..] == after;
  }

  /** A name the constructor accepts: a string of at most 50 characters that
      is not all whitespace. */
  ghost predicate ValidName(v: Value)
  {
    v.Str? && |v.s| <= MaxNameLength && exists k :: 0 <= k < |v.s| && !IsSpace(v.s[k])
  }

  /** An email the constructor accepts. */
  ghost predicate ValidEmail(v: Value)
  {
    v.Str? && MatchesEmailPattern(v.s)
  }

  /** `if not name or name.strip() == "": raise empty`, then
      `if len(name) > 50: raise tooLong`. */
  function CheckName(v: Value, empty: Error, tooLong: Error): (r: Outcome<Error>)
    ensures r.Pass? <==> ValidName(v)
    ensures r.Fail? ==> r.error in {empty, tooLong, NoStrip}
    ensures v.Str? && |v.s| > MaxNameLength && !IsBlank(v.s) ==> r == Fail(tooLong)
    ensures v.Str? && IsBlank(v.s) ==> r == Fail(empty)
    ensures !Truthy(v) ==> r == Fail(empty)
    ensures Truthy(v) && !v.Str? ==> r == Fail(NoStrip)
  {
    if !Truthy(v) then Fail(empty)
    else if !v.Str? then Fail(NoStrip)
    else if Strip(v.s) == "" then Fail(empty)
    else if |v.s| > MaxNameLength then Fail(tooLong)
    else Pass
  }

  /** `if not email or email.strip() == "": raise`, then the pattern. */
  function CheckEmail(v: Value): (r: Outcome<Error>)
    ensures r.Pass? <==> ValidEmail(v)
    ensures r.Fail? ==> r.error in {EmailEmpty, EmailInvalid, NoStrip}
    ensures v.Str? && IsBlank(v.s) ==> r == Fail(EmailEmpty)
    ensures !Truthy(v) ==> r == Fail(EmailEmpty)
    ensures Truthy(v) && !v.Str? ==> r == Fail(NoStrip)
    ensures v.Str? && !IsBlank(v.s) && !MatchesEmailPattern(v.s) ==> r == Fail(EmailInvalid)
  {
    if !Truthy(v) then Fail(EmailEmpty)
    else if !v.Str? then Fail(NoStrip)
    else if Strip(v.s) == "" then Fail(EmailEmpty)
    else
      EmailMatchesIffPattern(v.s);
      if !EmailMatches(v.s) then Fail(EmailInvalid) else Pass
  }

  /** All of `User.__init__`'s checks, in the order the constructor runs them. */
  function CheckUser(first: Value, last: Value, email: Value): (r: Outcome<Error>)
    ensures r.Pass? <==> ValidName(first) && ValidName(last) && ValidEmail(email)
    ensures !ValidName(first) ==> r == CheckName(first, FirstNameEmpty, FirstNameTooLong)
    ensures ValidName(first) && !ValidName(last) ==> r == CheckName(last, LastNameEmpty, LastNameTooLong)
    ensures ValidName(first) && ValidName(last) && !ValidEmail(email) ==> r == CheckEmail(email)
  {
    var f := CheckName(first, FirstNameEmpty, FirstNameTooLong);
    if f.Fail? then f else
    var l := CheckName(last, LastNameEmpty, LastNameTooLong);
    if l.Fail? then l else
    CheckEmail(email)
  }
}
