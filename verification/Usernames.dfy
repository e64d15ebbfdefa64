/**
 * The unique-username loop of Google sign-up (app/services/auth/actions/google_oauth.py)
 * over the identifier sanitizer (app/core/security/validation.py).
 */
module Usernames {
  import opened Sets

  const MAX_LEN := 50

  predicate Allowed(c: char) {
    'a' <= c <= 'z' || 'A' <= c <= 'Z' || '0' <= c <= '9' || c == '_' || c == '.' || c == '-'
  }

  function Strip(s: string): string {
    if s == "" then "" else (if Allowed(s[0]) then [s[0]] else "") + Strip(s[1..])
  }

  function SanitizeIdentifier(value: string): (id: string)
    ensures 0 < |id| <= MAX_LEN && forall i | 0 <= i < |id| :: Allowed(id[i])
  {
    StripAllows(value);
    var cleaned := Strip(value);
    var cut := if |cleaned| <= MAX_LEN then cleaned else cleaned[..MAX_LEN];
    if cut == "" then "user" else cut
  }

  lemma {:induction false} StripAllows(s: string)
    ensures forall i | 0 <= i < |Strip(s)| :: Allowed(Strip(s)[i])
  {
    if s != "" {
      StripAllows(s[1..]);
    }
  }

  // Nothing but the characters that are not allowed is lost, and the order is kept.
  lemma {:induction false} StripJoins(s: string, t: string)
    ensures Strip(s + t) == Strip(s) + Strip(t)
  {
    if s == "" {
      assert s + t == t && Strip(s) + Strip(t) == Strip(t);
    } else {
      var first := if Allowed(s[0]) then [s[0]] else "";
      assert Strip(s + t) == first + Strip(s[1..] + t) by {
        assert (s + t)[0] == s[0] && (s + t)[1..] == s[1..] + t;
      }
      StripJoins(s[1..], t);
      assert first + (Strip(s[1..]) + Strip(t)) == (first + Strip(s[1..])) + Strip(t);
    }
  }

  lemma {:induction false} StripKeepsAllowed(s: string)
    requires forall i | 0 <= i < |s| :: Allowed(s[i])
    ensures Strip(s) == s
  {
    if s != "" {
      StripKeepsAllowed(s[1..]);
    }
  }

  lemma {:induction false} StripDropsOthers(s: string)
    requires forall i | 0 <= i < |s| :: !Allowed(s[i])
    ensures Strip(s) == ""
  {
    if s != "" {
      StripDropsOthers(s[1..]);
    }
  }

  /** An identifier is left alone, and sanitizing twice is sanitizing once. */
  lemma SanitizedStays(value: string)
    ensures SanitizeIdentifier(value) == value <==> 0 < |value| <= MAX_LEN && forall i | 0 <= i < |value| :: Allowed(value[i])
    ensures SanitizeIdentifier(SanitizeIdentifier(value)) == SanitizeIdentifier(value)
  {
    var id := SanitizeIdentifier(value);
    StripKeepsAllowed(id);
    if 0 < |value| <= MAX_LEN && forall i | 0 <= i < |value| :: Allowed(value[i]) {
      StripKeepsAllowed(value);
    }
  }

  // What is left of a value is its beginning, stripped; of nothing allowed, a stock name.
  lemma SanitizedIsStripped(value: string)
    ensures SanitizeIdentifier(value) <= Strip(value) || ((forall i | 0 <= i < |value| :: !Allowed(value[i])) && SanitizeIdentifier(value) == "user")
    ensures (forall i | 0 <= i < |value| :: !Allowed(value[i])) ==> SanitizeIdentifier(value) == "user"
    ensures |Strip(value)| <= MAX_LEN && Strip(value) != "" ==> SanitizeIdentifier(value) == Strip(value)
  {
    if forall i | 0 <= i < |value| :: !Allowed(value[i]) {
      StripDropsOthers(value);
    } else {
      var i :| 0 <= i < |value| && Allowed(value[i]);
      StripJoins(value[..i], value[i..]);
      assert value[..i] + value[i..] == value;
    }
  }

  // email.split("@")[0]
  function LocalPart(email: string): string {
    if email == "" || email[0] == '@' then "" else [email[0]] + LocalPart(email[1..])
  }

  lemma {:induction false} LocalPartIsBeforeAt(local: string, rest: string)
    requires '@' !in local && (rest == "" || rest[0] == '@')
    ensures LocalPart(local + rest) == local
  {
    if local != "" {
      assert (local + rest)[1..] == local[1..] + rest;
      LocalPartIsBeforeAt(local[1..], rest);
    } else {
      assert local + rest == rest;
    }
  }

  function Decimal(n: nat): string {
    if n < 10 then ['0' + n as char] else Decimal(n / 10) + ['0' + (n % 10) as char]
  }

  // The names tried, in order: base, base2, base3, ...
  function Candidate(base: string, k: nat): string {
    if k == 0 then base else base + Decimal(k + 1)
  }

  lemma {:induction false} DecimalIsInjective(m: nat, n: nat)
    requires Decimal(m) == Decimal(n)
    ensures m == n
  {
    DecimalLength(m);
    DecimalLength(n);
    var last := Decimal(m)[|Decimal(m)| - 1];
    if 10 <= m && 10 <= n {
      assert Decimal(m)[..|Decimal(m)| - 1] == Decimal(m / 10);
      assert Decimal(n)[..|Decimal(n)| - 1] == Decimal(n / 10);
      DecimalIsInjective(m / 10, n / 10);
      assert last == '0' + (m % 10) as char == '0' + (n % 10) as char;
    }
  }

  lemma {:induction false} DecimalLength(n: nat)
    ensures Decimal(n) != "" && (|Decimal(n)| == 1 <==> n < 10)
  {
  }

  lemma CandidatesDiffer(base: string, j: nat, k: nat)
    requires Candidate(base, j) == Candidate(base, k)
    ensures j == k
  {
    DecimalLength(j + 1);
    DecimalLength(k + 1);
    if j != 0 && k != 0 {
      assert Candidate(base, j)[|base|..] == Decimal(j + 1);
      assert Candidate(base, k)[|base|..] == Decimal(k + 1);
      DecimalIsInjective(j + 1, k + 1);
    }
  }

  function Tried(base: string, count: nat): set<string> {
    set k: nat | k < count :: Candidate(base, k)
  }

  // Pigeonhole: n candidates are n different names.
  lemma {:induction false} TriedAreDistinct(base: string, count: nat)
    ensures |Tried(base, count)| == count
  {
    if count != 0 {
      TriedAreDistinct(base, count - 1);
      assert Tried(base, count) == Tried(base, count - 1) + {Candidate(base, count - 1)};
      if Candidate(base, count - 1) in Tried(base, count - 1) {
        var k: nat :| k < count - 1 && Candidate(base, k) == Candidate(base, count - 1);
        CandidatesDiffer(base, k, count - 1);
      }
    }
  }

  lemma {:induction false} TriedAreFew(base: string, count: nat, taken: set<string>)
    requires Tried(base, count) <= taken
    ensures count <= |taken|
  {
    TriedAreDistinct(base, count);
    SubsetSize(Tried(base, count), taken);
  }

  /** Whatever names are taken, the loop ends on the first free candidate. */
  method BuildUniqueUsername(email: string, taken: set<string>) returns (candidate: string, ghost tries: nat)
    ensures candidate !in taken && candidate != ""
    ensures var base := SanitizeIdentifier(LocalPart(email));
            && candidate == Candidate(base, tries)
            && (forall k: nat | k < tries :: Candidate(base, k) in taken)
    ensures tries <= |taken|
  {
    var base := SanitizeIdentifier(LocalPart(email));
    candidate := base;
    var suffix := 1;
    tries := 0;
    TriedAreFew(base, 0, taken);
    while candidate in taken
      invariant suffix == tries + 1 && candidate == Candidate(base, tries)
      invariant forall k: nat | k < tries :: Candidate(base, k) in taken
      invariant tries <= |taken|
      decreases |taken| - tries
    {
      tries := tries + 1;
      assert Tried(base, tries) <= taken;
      TriedAreFew(base, tries, taken);
      suffix := suffix + 1;
      candidate := base + Decimal(suffix);
    }
  }
}
