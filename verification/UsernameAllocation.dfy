/**
 Deriving a username for a provisioned account: truncate and sanitise the external subject, then append
 `_2`, `_3`, ... (shortening the base so that the name stays within twenty bytes) until a free name is found.
 */
module UsernameAllocation {
  import opened Utf8

  const MAX_LENGTH := 20
  const UNDERSCORE: byte := 0x5F
  const INT_MAX := 0x7FFF_FFFF_FFFF_FFFF

  predicate IsDigit(b: byte)
  {
    0x30 <= b <= 0x39
  }

  predicate Allowed(b: int)
  {
    || 0x61 <= b <= 0x7A
    || 0x41 <= b <= 0x5A
    || 0x30 <= b <= 0x39
    || b == 0x5F
  }

  /** A name every later consumer of the account can rely on. */
  predicate SafeName(s: Bytes)
  {
    0 < |s| <= MAX_LENGTH && forall k :: 0 <= k < |s| ==> Allowed(s[k])
  }

  /** Rune-wise mapping from byte `i` on: allowed runes stay, every other rune becomes one underscore. */
  function MapRunes(s: Bytes, i: nat): (t: Bytes)
    requires i <= |s|
    ensures |t| <= |s| - i
    ensures i < |s| ==> t != []
    ensures forall k :: 0 <= k < |t| ==> Allowed(t[k])
    decreases |s| - i
  {
    if i == |s| then []
    else
      var r := DecodeRune(s, i);
      [if Allowed(r.code) then r.code else UNDERSCORE] + MapRunes(s, i + r.width)
  }

  function Sanitized(subject: Bytes): (t: Bytes)
    ensures SafeName(t)
  {
    var username := [0x75, 0x5F] + subject;
    MapRunes(if |username| > MAX_LENGTH then username[..MAX_LENGTH] else username, 0)
  }

  /**
   The name of an ASCII subject: behind `u_` as much of it as fits into twenty bytes, with an underscore for everything
   but letters and digits.
   */
  lemma SanitizedAscii(subject: Bytes)
    requires IsAscii(subject)
    ensures var t := Sanitized(subject);
            && |t| == (if |subject| > 18 then 20 else |subject| + 2)
            && t[0] == 0x75 && t[1] == 0x5F
            && forall k :: 2 <= k < |t| ==>
                 var b := subject[k - 2];
                 t[k] == if 0x30 <= b <= 0x39 || 0x41 <= b <= 0x5A || 0x61 <= b <= 0x7A then b else 0x5F
  {
    var username: Bytes := [0x75, 0x5F] + subject;
    var cut := if |username| > MAX_LENGTH then username[..MAX_LENGTH] else username;
    MapAscii(cut, 0);
  }

  lemma {:induction false} MapAscii(s: Bytes, i: nat)
    requires IsAscii(s) && i <= |s|
    ensures |MapRunes(s, i)| == |s| - i
    ensures forall k :: i <= k < |s| ==> MapRunes(s, i)[k - i] == if Allowed(s[k]) then s[k] else UNDERSCORE
    decreases |s| - i
  {
    if i < |s| {
      MapAscii(s, i + 1);
    }
  }

  function Digits(n: nat): (d: Bytes)
    ensures d != [] && forall k :: 0 <= k < |d| ==> IsDigit(d[k])
  {
    if n < 10 then [0x30 + n] else Digits(n / 10) + [0x30 + n % 10]
  }

  function Suffix(n: nat): (s: Bytes)
    ensures |s| == 1 + |Digits(n)|
  {
    [UNDERSCORE] + Digits(n)
  }

  /** The name tried for a suffix; the base gives way when the whole would be too long. */
  function Candidate(base: Bytes, n: nat): (c: Bytes)
    requires SafeName(base) && n <= INT_MAX
    ensures SafeName(c)
  {
    DigitsFit(n);
    var whole := base + Suffix(n);
    if |whole| > MAX_LENGTH then base[..MAX_LENGTH - |Suffix(n)|] + Suffix(n) else whole
  }

  // ---- numerals ----

  function Pow10(k: nat): nat
  {
    if k == 0 then 1 else 10 * Pow10(k - 1)
  }

  lemma {:induction false} DigitsLength(n: nat, k: nat)
    requires k > 0 && n < Pow10(k)
    ensures |Digits(n)| <= k
  {
    if n >= 10 {
      DigitsLength(n / 10, k - 1);
    }
  }

  /** Nineteen digits are enough for every value of a 64-bit counter, so the suffix always fits. */
  lemma DigitsFit(n: nat)
    requires n <= INT_MAX
    ensures |Suffix(n)| <= MAX_LENGTH
  {
    assert Pow10(5) == 100_000;
    assert Pow10(10) == 10_000_000_000;
    assert Pow10(15) == 1_000_000_000_000_000;
    assert Pow10(19) == 10_000_000_000_000_000_000;
    DigitsLength(n, 19);
  }

  /** What a sequence of decimal digits stands for. */
  function Numeral(d: Bytes): int
  {
    if d == [] then 0 else 10 * Numeral(d[..|d| - 1]) + (d[|d| - 1] as int - 0x30)
  }

  /** Suffixes are written in decimal, without leading zeros. */
  lemma {:induction false} DigitsAreDecimal(n: nat)
    ensures Numeral(Digits(n)) == n
    ensures n > 0 ==> Digits(n)[0] != 0x30
  {
    var d := Digits(n);
    if n >= 10 {
      assert d[..|d| - 1] == Digits(n / 10);
      DigitsAreDecimal(n / 10);
    } else {
      assert d[..0] == [];
    }
  }

  /** A candidate is as much of the base as fits, an underscore and the suffix. */
  lemma CandidateShape(base: Bytes, n: nat)
    requires SafeName(base) && n <= INT_MAX
    ensures var c, kept := Candidate(base, n), |Candidate(base, n)| - 1 - |Digits(n)|;
            && kept >= 0 && kept == (if |base| + 1 + |Digits(n)| > 20 then 19 - |Digits(n)| else |base|)
            && kept <= |base| && c == base[..kept] + [0x5F] + Digits(n)
  {
    DigitsFit(n);
  }

  lemma {:induction false} DigitsInjective(a: nat, b: nat)
    requires Digits(a) == Digits(b)
    ensures a == b
  {
    if a >= 10 && b >= 10 {
      var da, db := Digits(a), Digits(b);
      assert da[..|da| - 1] == Digits(a / 10);
      assert db[..|db| - 1] == Digits(b / 10);
      assert da[|da| - 1] == db[|db| - 1];
      DigitsInjective(a / 10, b / 10);
    }
  }

  /** A numeral contains no underscore, so the last underscore of a name marks where its suffix starts. */
  lemma SuffixesMisalign(x: Bytes, y: Bytes, a: nat, b: nat)
    requires |Suffix(a)| < |Suffix(b)|
    ensures x + Suffix(a) != y + Suffix(b)
  {
    if |x + Suffix(a)| == |y + Suffix(b)| {
      assert (x + Suffix(a))[|x|] == UNDERSCORE;
      assert (y + Suffix(b))[|x|] == Digits(b)[|x| - |y| - 1];
    }
  }

  lemma SuffixRecoverable(x: Bytes, y: Bytes, a: nat, b: nat)
    requires x + Suffix(a) == y + Suffix(b)
    ensures a == b
  {
    if |Suffix(a)| < |Suffix(b)| {
      SuffixesMisalign(x, y, a, b);
    } else if |Suffix(b)| < |Suffix(a)| {
      SuffixesMisalign(y, x, b, a);
    } else {
      assert Digits(a) == (x + Suffix(a))[|x| + 1..];
      assert Digits(b) == (y + Suffix(b))[|y| + 1..];
      DigitsInjective(a, b);
    }
  }

  /** Different suffixes give different names, whatever has been cut off the base. */
  lemma CandidatesDistinct(base: Bytes, a: nat, b: nat)
    requires SafeName(base) && a <= INT_MAX && b <= INT_MAX
    ensures Candidate(base, a) == Candidate(base, b) ==> a == b
  {
    DigitsFit(a);
    DigitsFit(b);
    if Candidate(base, a) == Candidate(base, b) {
      var x := Candidate(base, a)[..|Candidate(base, a)| - |Suffix(a)|];
      var y := Candidate(base, b)[..|Candidate(base, b)| - |Suffix(b)|];
      assert Candidate(base, a) == x + Suffix(a);
      assert Candidate(base, b) == y + Suffix(b);
      SuffixRecoverable(x, y, a, b);
    }
  }

  // ---- the search for a free name ----

  /** The names tried for suffixes `2` up to `n`. */
  ghost function Tried(base: Bytes, n: nat): (s: set<Bytes>)
    requires SafeName(base) && n <= INT_MAX
    ensures forall c :: c in s <==> exists k :: 2 <= k <= n && c == Candidate(base, k)
  {
    set k | 2 <= k <= n :: Candidate(base, k)
  }

  lemma {:induction false} TriedSize(base: Bytes, n: nat)
    requires SafeName(base) && 1 <= n <= INT_MAX
    ensures |Tried(base, n)| == n - 1
  {
    if n == 1 {
      assert Tried(base, 1) == {};
    } else {
      forall k | 2 <= k < n ensures Candidate(base, k) != Candidate(base, n) {
        CandidatesDistinct(base, k, n);
      }
      assert Tried(base, n) == Tried(base, n - 1) + {Candidate(base, n)};
      TriedSize(base, n - 1);
    }
  }

  lemma {:induction false} SubsetSize<T>(a: set<T>, b: set<T>)
    requires a <= b
    ensures |a| <= |b|
  {
    if a != {} {
      var x :| x in a;
      SubsetSize(a - {x}, b - {x});
    }
  }

  /** All the tried names being taken bounds the suffix by the number of taken names. */
  lemma SuffixBounded(base: Bytes, taken: set<Bytes>, n: nat)
    requires SafeName(base) && 1 <= n <= INT_MAX
    requires forall k :: 2 <= k <= n ==> Candidate(base, k) in taken
    ensures n - 1 <= |taken|
  {
    TriedSize(base, n);
    SubsetSize(Tried(base, n), taken);
  }

  /** Which name the allocation is meant to pick: the plain one, else the one with the least free suffix. */
  ghost predicate FirstFree(base: Bytes, taken: set<Bytes>, name: Bytes, n: nat)
    requires SafeName(base) && 1 <= n <= INT_MAX
  {
    && name !in taken
    && (n == 1 ==> name == base)
    && (n > 1 ==> base in taken && name == Candidate(base, n))
    && forall k :: 2 <= k < n ==> Candidate(base, k) in taken
  }

  method AllocateUsername(subject: Bytes, taken: set<Bytes>) returns (name: Bytes, suffix: nat, checks: nat)
    requires |taken| < INT_MAX - 1
    ensures 1 <= suffix <= INT_MAX && FirstFree(Sanitized(subject), taken, name, suffix)
    ensures SafeName(name)
    ensures checks == suffix <= |taken| + 2
  {
    var sanitized := Sanitized(subject);
    name, suffix, checks := sanitized, 1, 1;
    while name in taken
      invariant 1 <= suffix <= |taken| + 2 && checks == suffix
      invariant name == if suffix == 1 then sanitized else Candidate(sanitized, suffix)
      invariant suffix > 1 ==> sanitized in taken
      invariant forall k :: 2 <= k < suffix ==> Candidate(sanitized, k) in taken
      decreases |taken| + 2 - suffix
    {
      SuffixBounded(sanitized, taken, suffix);
      suffix := suffix + 1;
      DigitsFit(suffix);
      var base := sanitized;
      var candidate := base + Suffix(suffix);
      if |candidate| > MAX_LENGTH {
        base := base[..MAX_LENGTH - |Suffix(suffix)|];
        candidate := base + Suffix(suffix);
      }
      name := candidate;
      checks := checks + 1;
    }
  }

  /** A subject whose name fills all twenty bytes and already ends in the first suffix. */
  function LongSubject(): (s: Bytes)
    ensures |s| == 18 && forall k :: 0 <= k < |s| ==> Allowed(s[k])
    ensures s[16..] == Suffix(2)
  {
    var letters: Bytes := seq(16, k => 0x61);
    assert Digits(2) == [0x32];
    letters + Suffix(2)
  }

  /** Bytes that are allowed are mapped to themselves. */
  lemma {:induction false} MapRunesKeeps(s: Bytes, i: nat)
    requires i <= |s| && forall k :: 0 <= k < |s| ==> Allowed(s[k])
    ensures MapRunes(s, i) == s[i..]
    decreases |s| - i
  {
    if i < |s| {
      MapRunesKeeps(s, i + 1);
      assert s[i..] == [s[i]] + s[i + 1..];
    }
  }

  /** The name of that subject is its own first candidate. */
  lemma LongSubjectIsOwnCandidate()
    ensures var base := Sanitized(LongSubject()); Candidate(base, 2) == base
  {
    var username: Bytes := [0x75, 0x5F] + LongSubject();
    MapRunesKeeps(username, 0);
    assert username[0..] == username;
    var base := Sanitized(LongSubject());
    assert base == username;
    assert |Suffix(2)| == 2;
    assert base[18..] == LongSubject()[16..] == Suffix(2);
    assert base == base[..18] + base[18..];
  }

  /** The bound is met for every number of taken names: some subject needs two more checks than there are names. */
  lemma BoundIsTight(n: nat) returns (subject: Bytes, taken: set<Bytes>)
    requires 1 <= n && n + 2 <= INT_MAX
    ensures |taken| == n
    ensures FirstFree(Sanitized(subject), taken, Candidate(Sanitized(subject), n + 2), n + 2)
  {
    subject := LongSubject();
    var base := Sanitized(subject);
    taken := Tried(base, n + 1);
    TriedSize(base, n + 1);
    LongSubjectIsOwnCandidate();
    forall k | 2 <= k <= n + 1 ensures Candidate(base, k) != Candidate(base, n + 2) {
      CandidatesDistinct(base, k, n + 2);
    }
  }
}
