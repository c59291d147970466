/** The registration form validators. Each returns whether its input is
    acceptable and the message to show: empty on success, an explanation on
    failure. The regular expressions they use are modelled as scanners, each
    proved equal to a declarative description of the strings it accepts. */
module Validators {
  import opened Text

  datatype Verdict = Verdict(ok: bool, message: string)

  // ---------------------------------------------------------------- character classes

  /** `[a-zA-Z0-9_.-]` */
  predicate UsernameChar(c: char) { IsAsciiLetter(c) || IsAsciiDigit(c) || c == '_' || c == '.' || c == '-' }

  /** `[a-zA-Z0-9._%+-]` */
  predicate LocalChar(c: char) { IsAsciiLetter(c) || IsAsciiDigit(c) || c == '.' || c == '_' || c == '%' || c == '+' || c == '-' }

  /** `[a-zA-Z0-9.-]` */
  predicate DomainChar(c: char) { IsAsciiLetter(c) || IsAsciiDigit(c) || c == '.' || c == '-' }

  predicate AllUsernameChars(s: string) { forall i :: 0 <= i < |s| ==> UsernameChar(s[i]) }
  predicate AllLocalChars(s: string) { forall i :: 0 <= i < |s| ==> LocalChar(s[i]) }
  predicate AllDomainChars(s: string) { forall i :: 0 <= i < |s| ==> DomainChar(s[i]) }
  predicate AllLetters(s: string) { forall i :: 0 <= i < |s| ==> IsAsciiLetter(s[i]) }

  /** What `$` lets `re.match` accept: the whole string, or the whole string
      but one final newline. */
  function Body(s: string): string
  {
    if |s| > 0 && s[|s| - 1] == '\n' then s[..|s| - 1] else s
  }

  // ---------------------------------------------------------------- username

  /** `re.match(r'^[a-zA-Z0-9_.-]+$', s)` as a scan: the longest run of
      username characters from the start, which must reach the end or stop
      just before a final newline. */
  function UsernameRun(s: string): (k: nat)
    ensures k <= |s| && AllUsernameChars(s[..k]) && (k < |s| ==> !UsernameChar(s[k]))
  {
    if s == [] || !UsernameChar(s[0]) then 0
    else
      var k := UsernameRun(s[1..]) + 1;
      assert s[..k] == [s[0]] + s[1..][..k - 1];
      k
  }

  predicate UsernameMatch(s: string)
  {
    var k := UsernameRun(s);
    k >= 1 && (k == |s| || (k == |s| - 1 && s[k] == '\n'))
  }

  /** The strings the username pattern accepts, said directly. */
  predicate UsernameShape(s: string)
  {
    |Body(s)| >= 1 && AllUsernameChars(Body(s))
  }

  lemma UsernameMatchIsShape(s: string)
    ensures UsernameMatch(s) <==> UsernameShape(s)
  {
    var k := UsernameRun(s);
    if UsernameShape(s) {
      var b := Body(s);
      assert b == s[..|b|];
    }
    if UsernameMatch(s) && k == |s| - 1 {
      assert s[..k] == Body(s);
    }
  }

  /** `validate_username`. */
  function ValidateUsername(u: string): (r: Verdict)
    ensures r.ok <==> r.message == []
    ensures u == [] ==> r == Verdict(false, "Username is required")
    ensures 0 < |u| < 3 ==> r == Verdict(false, "Username must be at least 3 characters")
    ensures |u| > 50 ==> r == Verdict(false, "Username must be 50 characters or fewer")
  {
    if u == [] then Verdict(false, "Username is required")
    else if |u| < 3 then Verdict(false, "Username must be at least 3 characters")
    else if |u| > 50 then Verdict(false, "Username must be 50 characters or fewer")
    else if !UsernameMatch(u) then
      Verdict(false, "Username may only contain letters, numbers, dots, hyphens, and underscores")
    else Verdict(true, "")
  }

  /** A username is accepted exactly when it is 3 to 50 characters long and
      made of letters, digits, `_`, `.` and `-`, except that one final newline
      also passes (and counts towards the length). */
  lemma UsernameAccepted(u: string)
    ensures ValidateUsername(u).ok <==> 3 <= |u| <= 50 && UsernameShape(u)
    ensures ValidateUsername(u).ok && u[|u| - 1] == '\n' ==> AllUsernameChars(u[..|u| - 1])
  {
    UsernameMatchIsShape(u);
  }

  // ---------------------------------------------------------------- password

  /** `validate_password`. */
  function ValidatePassword(p: string): (r: Verdict)
    ensures r.ok <==> r.message == []
    ensures r.ok <==> |p| >= 8
    ensures p == [] ==> r == Verdict(false, "Password is required")
    ensures 0 < |p| < 8 ==> r == Verdict(false, "Password must be at least 8 characters")
  {
    if p == [] then Verdict(false, "Password is required")
    else if |p| < 8 then Verdict(false, "Password must be at least 8 characters")
    else Verdict(true, "")
  }

  // ---------------------------------------------------------------- email

  /** The index of the first `c` in `s`, or `|s|` when there is none. */
  function FirstIndex(s: string, c: char): (r: nat)
    ensures r <= |s| && (forall i :: 0 <= i < r ==> s[i] != c) && (r < |s| ==> s[r] == c)
  {
    if s == [] then 0 else if s[0] == c then 0 else FirstIndex(s[1..], c) + 1
  }

  /** The index of the last `c` in `s`, or -1 when there is none. */
  function LastIndex(s: string, c: char): (r: int)
    ensures -1 <= r < |s| && (forall i :: r < i < |s| ==> s[i] != c) && (r >= 0 ==> s[r] == c)
  {
    if s == [] then -1 else if s[|s| - 1] == c then |s| - 1 else LastIndex(s[..|s| - 1], c)
  }

  /** `^[a-zA-Z0-9._%+-]+@[a-zA-Z0-9.-]+\.[a-zA-Z]{2,}$` on a string with no
      final newline, as a scan: the local part runs to the first `@`, the
      top-level domain starts after the last dot. */
  predicate EmailScan(x: string)
  {
    var at := FirstIndex(x, '@');
    at >= 1 && at < |x| && AllLocalChars(x[..at]) &&
    var rest := x[at + 1..];
    var dot := LastIndex(rest, '.');
    dot >= 1 && AllDomainChars(rest[..dot]) && |rest| - dot - 1 >= 2 && AllLetters(rest[dot + 1..])
  }

  /** The same strings, said directly: a local part, `@`, a domain, a dot
      and a top-level domain of at least two letters. */
  ghost predicate EmailShape(x: string)
  {
    exists l, d, t ::
      && x == l + "@" + d + "." + t
      && |l| >= 1 && AllLocalChars(l)
      && |d| >= 1 && AllDomainChars(d)
      && |t| >= 2 && AllLetters(t)
  }

  lemma EmailScanOfShape(x: string, l: string, d: string, t: string)
    requires x == l + "@" + d + "." + t
    requires |l| >= 1 && AllLocalChars(l)
    requires |d| >= 1 && AllDomainChars(d)
    requires |t| >= 2 && AllLetters(t)
    ensures EmailScan(x)
  {
    AtOfShape(x, l, d + "." + t);
    DotOfShape(d, t);
  }

  /** The first `@` of `l@r` is the one after `l` when `l` holds none. */
  lemma AtOfShape(x: string, l: string, r: string)
    requires x == l + "@" + r
    requires AllLocalChars(l)
    ensures FirstIndex(x, '@') == |l| && x[..|l|] == l && x[|l| + 1..] == r
  {
    assert x[|l|] == '@';
    assert forall i :: 0 <= i < |l| ==> x[i] == l[i] && x[i] != '@';
    assert x[..|l|] == l;
    assert x[|l| + 1..] == r;
  }

  /** The last dot of `d.t` is the one after `d` when `t` is letters. */
  lemma DotOfShape(d: string, t: string)
    requires AllLetters(t)
    ensures var rest := d + "." + t;
      LastIndex(rest, '.') == |d| && rest[..|d|] == d && rest[|d| + 1..] == t
  {
    var rest := d + "." + t;
    assert rest[|d|] == '.';
    assert forall i :: |d| < i < |rest| ==> rest[i] == t[i - |d| - 1] && rest[i] != '.';
    assert rest[..|d|] == d && rest[|d| + 1..] == t;
  }

  /** A string the scan accepts splits into the three parts of the
      pattern. */
  lemma ShapeOfEmailScan(x: string)
    requires EmailScan(x)
    ensures EmailShape(x)
  {
    var at := FirstIndex(x, '@');
    var rest := x[at + 1..];
    var dot := LastIndex(rest, '.');
    var l, d, t := x[..at], rest[..dot], rest[dot + 1..];
    assert rest == d + "." + t;
    assert x == l + "@" + rest;
  }

  lemma EmailScanIsShape(x: string)
    ensures EmailScan(x) <==> EmailShape(x)
  {
    if EmailScan(x) {
      ShapeOfEmailScan(x);
    }
    if EmailShape(x) {
      var l, d, t :| x == l + "@" + d + "." + t && |l| >= 1 && AllLocalChars(l)
        && |d| >= 1 && AllDomainChars(d) && |t| >= 2 && AllLetters(t);
      assert x == l + "@" + (d + "." + t);
      EmailScanOfShape(x, l, d, t);
    }
  }

  /** `re.match(pattern, email)`: none of the pattern's classes holds a
      newline, so `$` only adds the final-newline case. */
  predicate EmailMatch(e: string)
  {
    EmailScan(Body(e))
  }

  /** `validate_email`: the empty address is allowed, the field being
      optional. */
  function ValidateEmail(e: string): (r: Verdict)
    ensures r.ok <==> r.message == []
    ensures e == [] ==> r.ok
  {
    if e == [] then Verdict(true, "")
    else if !EmailMatch(e) then Verdict(false, "Please enter a valid email address")
    else Verdict(true, "")
  }

  /** An address is accepted exactly when it is empty or has the shape
      local@domain.tld, with a top-level domain of two letters or more, give
      or take one final newline. */
  lemma EmailAccepted(e: string)
    ensures ValidateEmail(e).ok <==> e == [] || EmailShape(Body(e))
  {
    EmailScanIsShape(Body(e));
  }
}
