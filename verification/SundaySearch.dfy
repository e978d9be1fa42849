/**
 The Sunday substring search. The shift table is keyed by the runes of the pattern while the text is probed by
 single bytes, so the search is complete exactly for ASCII patterns.
 */
module SundaySearch {
  import opened Utf8

  predicate MatchesAt(text: Bytes, pattern: Bytes, i: int)
  {
    0 <= i <= |text| - |pattern| && text[i..i + |pattern|] == pattern
  }

  /** What a substring search is for: the pattern is somewhere in the text, byte for byte. */
  ghost predicate Occurs(text: Bytes, pattern: Bytes)
  {
    exists i :: MatchesAt(text, pattern, i)
  }

  /** The shift table after the runes that start at byte `i` or later are added; later occurrences win. */
  function Fill(pattern: Bytes, i: nat, offset: map<int, nat>): (t: map<int, nat>)
    requires i <= |pattern|
    requires forall c :: c in offset ==> 1 <= offset[c] <= |pattern|
    ensures forall c :: c in t ==> 1 <= t[c] <= |pattern|
    decreases |pattern| - i
  {
    if i == |pattern| then offset
    else
      var r := DecodeRune(pattern, i);
      Fill(pattern, i + r.width, offset[r.code := |pattern| - i])
  }

  function Offsets(pattern: Bytes): (t: map<int, nat>)
    ensures forall c :: c in t ==> 1 <= t[c] <= |pattern|
  {
    Fill(pattern, 0, map[])
  }

  /** How far the alignment moves when the byte just past the window is `next`. */
  function Shift(pattern: Bytes, next: byte): (d: nat)
    ensures 1 <= d <= |pattern| + 1
  {
    var t := Offsets(pattern);
    if next in t then t[next] else |pattern| + 1
  }

  /** The alignments the search tries, starting at `i`. */
  predicate Scan(text: Bytes, pattern: Bytes, i: nat)
    decreases |text| - i
  {
    if i > |text| - |pattern| then false
    else if MatchesAt(text, pattern, i) then true
    else if i + |pattern| < |text| then Scan(text, pattern, i + Shift(pattern, text[i + |pattern|]))
    else false
  }

  method BuildOffsets(pattern: Bytes) returns (offset: map<int, nat>)
    ensures offset == Offsets(pattern)
  {
    offset := map[];
    var i := 0;
    while i < |pattern|
      invariant 0 <= i <= |pattern|
      invariant forall c :: c in offset ==> 1 <= offset[c] <= |pattern|
      invariant Fill(pattern, i, offset) == Offsets(pattern)
    {
      var c := DecodeRune(pattern, i);
      offset := offset[c.code := |pattern| - i];
      i := i + c.width;
    }
  }

  /** The inner loop: how many bytes of the pattern agree with the text at this alignment. */
  method MatchLength(text: Bytes, pattern: Bytes, i: nat) returns (j: nat)
    requires i + |pattern| <= |text|
    ensures j <= |pattern|
    ensures j == |pattern| <==> MatchesAt(text, pattern, i)
  {
    j := 0;
    while j < |pattern| && text[i + j] == pattern[j]
      invariant 0 <= j <= |pattern|
      invariant forall k :: 0 <= k < j ==> text[i + k] == pattern[k]
    {
      j := j + 1;
    }
    if j < |pattern| {
      assert text[i..i + |pattern|][j] != pattern[j];
    }
  }

  method SundaySearch(text: Bytes, pattern: Bytes) returns (found: bool)
    ensures found == Scan(text, pattern, 0)
    ensures found ==> Occurs(text, pattern)
    ensures IsAscii(pattern) ==> found == Occurs(text, pattern)
  {
    ScanMeansOccurs(text, pattern);
    var offset := BuildOffsets(pattern);
    var n, m := |text|, |pattern|;
    var i := 0;
    while i <= n - m
      invariant 0 <= i
      invariant Scan(text, pattern, 0) == Scan(text, pattern, i)
      decreases n - i
    {
      var j := MatchLength(text, pattern, i);
      if j == m {
        return true;
      }
      if i + m < n {
        var next := text[i + m];
        if next in offset {
          i := i + offset[next];
        } else {
          i := i + m + 1;
        }
      } else {
        break;
      }
    }
    return false;
  }

  lemma {:induction false} Sound(text: Bytes, pattern: Bytes, i: nat)
    ensures Scan(text, pattern, i) ==> exists k :: i <= k && MatchesAt(text, pattern, k)
    decreases |text| - i
  {
    if i <= |text| - |pattern| && !MatchesAt(text, pattern, i) && i + |pattern| < |text| {
      Sound(text, pattern, i + Shift(pattern, text[i + |pattern|]));
    }
  }

  // ---- ASCII patterns: no shift skips a match ----

  lemma {:induction false} FillKeeps(pattern: Bytes, i: nat, offset: map<int, nat>, c: int, bound: nat)
    requires i <= |pattern| && |pattern| - i <= bound
    requires forall x :: x in offset ==> 1 <= offset[x] <= |pattern|
    requires c in offset && offset[c] <= bound
    ensures c in Fill(pattern, i, offset) && Fill(pattern, i, offset)[c] <= bound
    decreases |pattern| - i
  {
    if i < |pattern| {
      var r := DecodeRune(pattern, i);
      FillKeeps(pattern, i + r.width, offset[r.code := |pattern| - i], c, bound);
    }
  }

  /** For an ASCII pattern the table knows, for each of its bytes, a position no earlier than this one. */
  lemma {:induction false} FillOfAscii(pattern: Bytes, i: nat, offset: map<int, nat>, k: nat)
    requires IsAscii(pattern) && i <= k < |pattern|
    requires forall x :: x in offset ==> 1 <= offset[x] <= |pattern|
    ensures pattern[k] in Fill(pattern, i, offset) && Fill(pattern, i, offset)[pattern[k]] <= |pattern| - k
    decreases |pattern| - i
  {
    var next := offset[pattern[i] as int := |pattern| - i];
    if i < k {
      FillOfAscii(pattern, i + 1, next, k);
    } else {
      FillKeeps(pattern, i + 1, next, pattern[k], |pattern| - k);
    }
  }

  /** The bad-character argument: every alignment the shift jumps over disagrees with the byte past the window. */
  lemma NoMatchSkipped(text: Bytes, pattern: Bytes, i: nat, k: nat)
    requires IsAscii(pattern)
    requires i + |pattern| < |text|
    requires i < k < i + Shift(pattern, text[i + |pattern|])
    ensures !MatchesAt(text, pattern, k)
  {
    if MatchesAt(text, pattern, k) {
      var at := i + |pattern| - k;
      assert text[k..k + |pattern|][at] == text[i + |pattern|];
      FillOfAscii(pattern, 0, map[], at);
    }
  }

  lemma {:induction false} CompleteForAscii(text: Bytes, pattern: Bytes, i: nat)
    requires IsAscii(pattern)
    ensures Scan(text, pattern, i) <==> exists k :: i <= k && MatchesAt(text, pattern, k)
    decreases |text| - i
  {
    Sound(text, pattern, i);
    if k :| i <= k && MatchesAt(text, pattern, k) {
      if k != i && !MatchesAt(text, pattern, i) {
        var next := i + Shift(pattern, text[i + |pattern|]);
        if k < next {
          NoMatchSkipped(text, pattern, i, k);
        }
        CompleteForAscii(text, pattern, next);
      }
    }
  }

  lemma ScanMeansOccurs(text: Bytes, pattern: Bytes)
    ensures Scan(text, pattern, 0) ==> Occurs(text, pattern)
    ensures IsAscii(pattern) ==> (Scan(text, pattern, 0) <==> Occurs(text, pattern))
  {
    Sound(text, pattern, 0);
    if IsAscii(pattern) {
      CompleteForAscii(text, pattern, 0);
      if i :| MatchesAt(text, pattern, i) {
        assert 0 <= i && MatchesAt(text, pattern, i);
      }
    }
  }

  // ---- any other pattern is missed in some text ----

  /** A table entry for a non-ASCII byte value comes from a two-byte rune, so it is never about the last such byte. */
  lemma {:induction false} FillOfHighByte(pattern: Bytes, i: nat, offset: map<int, nat>, q: nat)
    requires i <= |pattern| && q < |pattern|
    requires forall x :: x in offset ==> 1 <= offset[x] <= |pattern|
    requires pattern[q] >= 0x80
    requires forall k :: q < k < |pattern| ==> pattern[k] < 0x80
    requires pattern[q] in offset ==> offset[pattern[q]] > |pattern| - q
    ensures pattern[q] in Fill(pattern, i, offset) ==> Fill(pattern, i, offset)[pattern[q]] > |pattern| - q
    decreases |pattern| - i
  {
    if i < |pattern| {
      var r := DecodeRune(pattern, i);
      FillOfHighByte(pattern, i + r.width, offset[r.code := |pattern| - i], q);
    }
  }

  function Repeat(b: byte, n: nat): (s: Bytes)
    ensures |s| == n && forall k :: 0 <= k < n ==> s[k] == b
  {
    seq(n, k => b)
  }

  /** A text that contains the pattern and on which the search says it does not. */
  function MissedText(pattern: Bytes, q: nat): Bytes
    requires q < |pattern|
  {
    Repeat(if pattern[0] == 0 then 1 else 0, |pattern| - q) + pattern
  }

  lemma MissesHighByte(pattern: Bytes, q: nat)
    requires q < |pattern|
    requires pattern[q] >= 0x80
    requires forall k :: q < k < |pattern| ==> pattern[k] < 0x80
    ensures Occurs(MissedText(pattern, q), pattern)
    ensures !Scan(MissedText(pattern, q), pattern, 0)
  {
    var text, m, d := MissedText(pattern, q), |pattern|, |pattern| - q;
    assert text[d..d + m] == pattern;
    assert MatchesAt(text, pattern, d);
    assert text[0..m][0] != pattern[0];
    assert text[m] == pattern[q];
    FillOfHighByte(pattern, 0, map[], q);
  }

  lemma {:induction false} LastHighByte(s: Bytes) returns (q: nat)
    requires !IsAscii(s)
    ensures q < |s| && s[q] >= 0x80
    ensures forall k :: q < k < |s| ==> s[k] < 0x80
  {
    q := |s| - 1;
    while s[q] < 0x80
      invariant 0 <= q < |s|
      invariant forall k :: q < k < |s| ==> s[k] < 0x80
      decreases q
    {
      if q == 0 {
        assert IsAscii(s);
      }
      q := q - 1;
    }
  }

  /** The exact condition: the search decides occurrence on every text if and only if the pattern is ASCII. */
  lemma CorrectExactlyForAscii(pattern: Bytes)
    ensures (forall text :: Scan(text, pattern, 0) <==> Occurs(text, pattern)) <==> IsAscii(pattern)
  {
    if IsAscii(pattern) {
      forall text ensures Scan(text, pattern, 0) <==> Occurs(text, pattern) {
        ScanMeansOccurs(text, pattern);
      }
    } else {
      var q := LastHighByte(pattern);
      MissesHighByte(pattern, q);
    }
  }
}
