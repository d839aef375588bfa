/**
 * The field checks the sign-up and login forms share: the e-mail pattern
 * `/\S+@\S+\.\S+/.test(email)` and the password length rule, with the messages
 * src/components/Auth/Signup.tsx and src/components/Auth/Login.tsx store for them.
 */
module FormChecks {
  import opened Wrappers

  /** The characters `\s` matches in a JavaScript regular expression. */
  predicate IsJsWhitespace(c: char)
  {
    c == '\t' || c == '\n' || c == '\U{000B}' || c == '\U{000C}' || c == '\r' || c == ' ' ||
    c == '\U{00A0}' || c == '\U{1680}' || ('\U{2000}' <= c <= '\U{200A}') ||
    c == '\U{2028}' || c == '\U{2029}' || c == '\U{202F}' || c == '\U{205F}' ||
    c == '\U{3000}' || c == '\U{FEFF}'
  }

  /** A run of `\S+`: one or more characters, none of them white space. */
  predicate NonBlank(t: string)
  {
    t != [] && forall i :: 0 <= i < |t| ==> !IsJsWhitespace(t[i])
  }

  /**
   * `s[a..e]` is a match of `\S+@\S+\.\S+` whose '@' is at `p` and whose '.' is at `q`.
   */
  ghost predicate MatchAt(s: string, a: int, p: int, q: int, e: int)
  {
    0 <= a < p < q < e <= |s| && s[p] == '@' && s[q] == '.' &&
    NonBlank(s[a..p]) && NonBlank(s[p + 1..q]) && NonBlank(s[q + 1..e])
  }

  /** The regular expression matches somewhere in `s`: the test is not anchored. */
  ghost predicate EmailPattern(s: string)
  {
    exists a, p, q, e :: MatchAt(s, a, p, q, e)
  }

  /** No white space in `s[from..to]`. */
  predicate NoBlankBetween(s: string, from: int, to: int)
    requires 0 <= from <= to <= |s|
  {
    forall i :: from <= i < to ==> !IsJsWhitespace(s[i])
  }

  /**
   * An '@' at `p` with a non-blank character before it, and a later '.' at `q` with a
   * non-blank character after it and only non-blank characters, at least one, between
   * the two.
   */
  predicate AtThenDot(s: string, p: int, q: int)
  {
    0 < p && p + 1 < q && q + 1 < |s| && s[p] == '@' && s[q] == '.' &&
    !IsJsWhitespace(s[p - 1]) && NoBlankBetween(s, p + 1, q) && !IsJsWhitespace(s[q + 1])
  }

  /** The test as a check of two positions. */
  predicate TestEmail(s: string)
  {
    exists p, q | 0 <= p < |s| && 0 <= q < |s| :: AtThenDot(s, p, q)
  }

  /** The shortest match around a pair of positions. */
  lemma ShortestMatch(s: string, p: int, q: int)
    requires AtThenDot(s, p, q)
    ensures MatchAt(s, p - 1, p, q, q + 2)
  {
    assert NonBlank(s[p - 1..p]) && NonBlank(s[q + 1..q + 2]);
    var t := s[p + 1..q];
    forall i | 0 <= i < |t|
      ensures !IsJsWhitespace(t[i])
    {
      assert t[i] == s[p + 1 + i];
    }
  }

  /** Any match has its '@' and '.' at a pair of positions the check accepts. */
  lemma MatchPositions(s: string, a: int, p: int, q: int, e: int)
    requires MatchAt(s, a, p, q, e)
    ensures AtThenDot(s, p, q)
  {
    assert s[p - 1] == s[a..p][p - 1 - a];
    assert s[q + 1] == s[q + 1..e][0];
    forall i | p + 1 <= i < q
      ensures !IsJsWhitespace(s[i])
    {
      assert s[i] == s[p + 1..q][i - p - 1];
    }
  }

  /** The position check decides the regular expression exactly. */
  lemma TestEmailCorrect(s: string)
    ensures TestEmail(s) <==> EmailPattern(s)
  {
    if TestEmail(s) {
      var p, q :| 0 <= p < |s| && 0 <= q < |s| && AtThenDot(s, p, q);
      ShortestMatch(s, p, q);
    }
    if EmailPattern(s) {
      var a, p, q, e :| MatchAt(s, a, p, q, e);
      MatchPositions(s, a, p, q, e);
      assert 0 <= p < |s| && 0 <= q < |s| && AtThenDot(s, p, q);
    }
  }

  /** The length JavaScript reports for a string: UTF-16 code units. */
  function Utf16Length(s: string): (n: nat)
    ensures |s| <= n <= 2 * |s|
  {
    if s == [] then 0 else (if s[0] > '\U{FFFF}' then 2 else 1) + Utf16Length(s[1..])
  }

  /** The e-mail check of both forms. */
  function EmailError(email: string): (r: Option<string>)
    ensures r.Some? ==> r.value != ""
  {
    if email == "" then Some("Email is required")
    else if !TestEmail(email) then Some("Invalid email format")
    else None
  }

  /**
   * An empty address is reported as missing; any other is rejected exactly when no
   * part of it matches the pattern.
   */
  lemma EmailErrorCases(email: string)
    ensures email == "" ==> EmailError(email) == Some("Email is required")
    ensures email != "" ==> (EmailError(email) == Some("Invalid email format") <==> !EmailPattern(email))
    ensures EmailError(email) == None <==> EmailPattern(email)
  {
    TestEmailCorrect(email);
  }

  /** The password check of both forms. */
  function PasswordError(password: string): (r: Option<string>)
    ensures r.Some? ==> r.value != ""
  {
    if password == "" then Some("Password is required")
    else if Utf16Length(password) < 6 then Some("Password must be at least 6 characters")
    else None
  }

  /** A password passes exactly when it is at least six code units long. */
  lemma PasswordErrorCases(password: string)
    ensures password == "" ==> PasswordError(password) == Some("Password is required")
    ensures password != "" && Utf16Length(password) < 6 ==>
      PasswordError(password) == Some("Password must be at least 6 characters")
    ensures PasswordError(password) == None <==> Utf16Length(password) >= 6
    ensures |password| >= 6 ==> PasswordError(password) == None
  {
  }
}
