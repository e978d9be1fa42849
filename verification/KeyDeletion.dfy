/**
 Deleting all auto-disabled keys of a channel at once against deleting them one at a time from the highest position,
 when every deletion sends the remaining keys through the key column.
 */
module KeyDeletion {
  import opened KeyText
  import opened MultiKeyChannel

  // ---- one deletion ----

  /** Deleting one key leaves the other entries as they were if and only if the remaining keys are lasting. */
  lemma DeleteKeepsTheRestExactlyWhenLasting(s: seq<KeyStatus>, k: nat, arrays: Arrays)
    requires k < |s| && |s| > 1 && ParsesArrays(arrays)
    ensures var rest := RemoveAt(s, k);
            Reread(KeysOf(s), rest, arrays) == rest <==> Lasting(KeysOf(rest), arrays)
  {
    var rest := RemoveAt(s, k);
    var keys := KeysOf(rest);
    RoundTripExactlyWhenLasting(keys, arrays);
    JoinEnds(keys);
    if Join(keys) == "" {
      assert |Reread(KeysOf(s), rest, arrays)| == |s|;
    } else {
      SameKeys(GetKeys(Join(keys), arrays), rest);
    }
  }

  lemma SameKeys(keys: seq<string>, s: seq<KeyStatus>)
    ensures Relabelled(keys, s) == s <==> keys == KeysOf(s)
  {
    if Relabelled(keys, s) == s {
      assert forall i :: 0 <= i < |s| ==> s[i].key == Relabelled(keys, s)[i].key;
    }
  }

  // ---- deletion one at a time ----

  /** Deleting auto-disabled keys singly from the highest position below `i`; the last key cannot be deleted. */
  function OneByOne(s: seq<KeyStatus>, i: nat, arrays: Arrays): seq<KeyStatus>
    decreases i
  {
    if i == 0 then s
    else if i <= |s| && s[i - 1].status == AUTO_DISABLED && |s| > 1 then
      OneByOne(Reread(KeysOf(s), RemoveAt(s, i - 1), arrays), i - 1, arrays)
    else OneByOne(s, i - 1, arrays)
  }

  lemma {:induction false} NothingBelow(s: seq<KeyStatus>, i: nat, arrays: Arrays)
    requires forall j :: 0 <= j < |s| && j < i ==> s[j].status != AUTO_DISABLED
    ensures OneByOne(s, i, arrays) == s
  {
    if i > 0 {
      NothingBelow(s, i - 1, arrays);
    }
  }

  lemma SkipOne(s: seq<KeyStatus>, i: nat, arrays: Arrays)
    requires i < |s| && s[i].status != AUTO_DISABLED
    ensures OneByOne(s, i + 1, arrays) == OneByOne(s, i, arrays)
  {
  }

  lemma {:induction false} OneByOneSkips(s: seq<KeyStatus>, from: nat, to: nat, arrays: Arrays)
    requires to <= from && forall j :: to <= j < from && j < |s| ==> s[j].status != AUTO_DISABLED
    ensures OneByOne(s, from, arrays) == OneByOne(s, to, arrays)
  {
    if to < from {
      OneByOneSkips(s, from - 1, to, arrays);
    }
  }

  lemma {:induction false} KeptOfOne(s: seq<KeyStatus>, k: nat)
    requires k < |s| && s[k].status == AUTO_DISABLED
    requires forall j :: 0 <= j < |s| && j != k ==> s[j].status != AUTO_DISABLED
    ensures Kept(s) == RemoveAt(s, k)
  {
    var front := s[..|s| - 1];
    if k == |s| - 1 {
      KeptOfNone(front);
    } else {
      KeptOfOne(front, k);
      assert RemoveAt(s, k) == RemoveAt(front, k) + [s[|s| - 1]];
    }
  }

  lemma {:induction false} KeptOfNone(s: seq<KeyStatus>)
    ensures Kept(s) == s <==> forall j :: 0 <= j < |s| ==> s[j].status != AUTO_DISABLED
  {
    KeptIsIdentity(s);
    CountNone(s);
  }

  lemma {:induction false} CountNone(s: seq<KeyStatus>)
    ensures CountStatus(s, AUTO_DISABLED) == 0 <==> forall j :: 0 <= j < |s| ==> s[j].status != AUTO_DISABLED
  {
    if s != [] {
      CountNone(s[..|s| - 1]);
      assert forall j :: 0 <= j < |s| - 1 ==> s[..|s| - 1][j] == s[j];
    }
  }

  /** With one key to delete and another to stay, both ways agree whatever the keys look like. */
  lemma OneDisabledKeyAgrees(s: seq<KeyStatus>, k: nat, arrays: Arrays)
    requires |s| > 1 && k < |s| && s[k].status == AUTO_DISABLED
    requires forall j :: 0 <= j < |s| && j != k ==> s[j].status != AUTO_DISABLED
    ensures Bulk(s, arrays) == OneByOne(s, |s|, arrays)
  {
    KeptOfOne(s, k);
    OneByOneSkips(s, |s|, k + 1, arrays);
    var rest := RemoveAt(s, k);
    DeletedAt(s, k, arrays);
    RereadDisablesNone(KeysOf(s), rest, k, arrays);
    NothingBelow(Reread(KeysOf(s), rest, arrays), k, arrays);
  }

  lemma DeletedAt(s: seq<KeyStatus>, k: nat, arrays: Arrays)
    requires |s| > 1 && k < |s| && s[k].status == AUTO_DISABLED
    ensures OneByOne(s, k + 1, arrays) == OneByOne(Reread(KeysOf(s), RemoveAt(s, k), arrays), k, arrays)
  {
  }

  /** Reading keys back disables none. */
  lemma RereadDisablesNone(current: seq<string>, s: seq<KeyStatus>, n: nat, arrays: Arrays)
    requires n <= |s| && forall j :: 0 <= j < n ==> s[j].status != AUTO_DISABLED
    ensures var t := Reread(current, s, arrays); forall j :: 0 <= j < |t| && j < n ==> t[j].status != AUTO_DISABLED
  {
  }

  // ---- blank keys ----

  predicate PlainEntries(s: seq<KeyStatus>)
  {
    PlainKeys(KeysOf(s))
  }

  predicate HasInkEntry(s: seq<KeyStatus>)
  {
    exists i :: 0 <= i < |s| && s[i].key != ""
  }

  predicate InkAtEnds(s: seq<KeyStatus>)
  {
    s != [] && s[0].key != "" && s[|s| - 1].key != ""
  }

  /** The entries left of plain keys that were stored and read again. */
  function Trimmed(s: seq<KeyStatus>): seq<KeyStatus>
  {
    Relabelled(WithoutBlankEnds(KeysOf(s)), s)
  }

  lemma RereadOfPlain(current: seq<string>, s: seq<KeyStatus>, arrays: Arrays)
    requires PlainEntries(s) && HasInkEntry(s)
    ensures Reread(current, s, arrays) == Trimmed(s)
  {
    var i :| 0 <= i < |s| && s[i].key != "";
    assert KeysOf(s)[i] != "";
    PlainKeysReadBack(KeysOf(s), arrays);
  }

  lemma TrimmedIdentity(s: seq<KeyStatus>)
    requires InkAtEnds(s)
    ensures Trimmed(s) == s
  {
  }

  /** The entries without the blank ones at the back. */
  function DropBack(s: seq<KeyStatus>): (t: seq<KeyStatus>)
    ensures t <= s
    ensures forall i :: |t| <= i < |s| ==> s[i].key == ""
    ensures t != [] ==> t[|t| - 1].key != ""
  {
    if s != [] && s[|s| - 1].key == "" then DropBack(s[..|s| - 1]) else s
  }

  lemma {:induction false} DropBackKeys(s: seq<KeyStatus>)
    ensures KeysOf(DropBack(s)) == WithoutBlankBack(KeysOf(s))
  {
    if s != [] && s[|s| - 1].key == "" {
      DropBackKeys(s[..|s| - 1]);
      assert KeysOf(s)[..|s| - 1] == KeysOf(s[..|s| - 1]);
    }
  }

  lemma TrimmedIsDropBack(s: seq<KeyStatus>)
    requires s != [] && s[0].key != ""
    ensures Trimmed(s) == DropBack(s) && InkAtEnds(Trimmed(s))
  {
    DropBackKeys(s);
    var t := DropBack(s);
    assert forall i :: 0 <= i < |t| ==> KeysOf(t)[i] == t[i].key == s[i].key;
    assert t != [];
  }

  lemma {:induction false} FrontAppended(keys: seq<string>)
    requires HasInk(keys)
    ensures WithoutBlankFront(keys) != [] && WithoutBlankFront(keys + [""]) == WithoutBlankFront(keys) + [""]
  {
    var i :| 0 <= i < |keys| && keys[i] != "";
    if keys[0] == "" {
      assert keys[1..][i - 1] != "";
      assert (keys + [""])[1..] == keys[1..] + [""];
      FrontAppended(keys[1..]);
    }
  }

  /** A blank entry at the end makes no difference once there is some ink. */
  lemma BlankAtEnd(s: seq<KeyStatus>, blank: KeyStatus)
    requires HasInkEntry(s) && blank.key == ""
    ensures Trimmed(s + [blank]) == Trimmed(s)
  {
    var i :| 0 <= i < |s| && s[i].key != "";
    assert KeysOf(s)[i] != "";
    FrontAppended(KeysOf(s));
    assert KeysOf(s + [blank]) == KeysOf(s) + [""];
    var front := WithoutBlankFront(KeysOf(s));
    assert (front + [""])[..|front|] == front;
    assert WithoutBlankEnds(KeysOf(s + [blank])) == WithoutBlankEnds(KeysOf(s));
  }

  lemma {:induction false} KeptOfDropBack(s: seq<KeyStatus>)
    requires HasInkEntry(Kept(s))
    ensures HasInkEntry(Kept(DropBack(s))) && Trimmed(Kept(DropBack(s))) == Trimmed(Kept(s))
  {
    if s != [] && s[|s| - 1].key == "" {
      KeptOfFront(s);
      KeptOfDropBack(s[..|s| - 1]);
    }
  }

  lemma KeptOfFront(s: seq<KeyStatus>)
    requires s != [] && s[|s| - 1].key == "" && HasInkEntry(Kept(s))
    ensures HasInkEntry(Kept(s[..|s| - 1])) && Trimmed(Kept(s[..|s| - 1])) == Trimmed(Kept(s))
  {
    var front, last := Kept(s[..|s| - 1]), s[|s| - 1];
    if last.status == AUTO_DISABLED {
      assert Kept(s) == front;
    } else {
      assert Kept(s) == front + [last];
      InkBefore(front, last);
      BlankAtEnd(front, last);
    }
  }

  lemma InkBefore(s: seq<KeyStatus>, blank: KeyStatus)
    requires HasInkEntry(s + [blank]) && blank.key == ""
    ensures HasInkEntry(s)
  {
    var i :| 0 <= i < |s + [blank]| && (s + [blank])[i].key != "";
    assert s[i].key != "";
  }

  /** What is kept has ink exactly when some entry with ink is not auto-disabled. */
  lemma {:induction false} KeptInk(s: seq<KeyStatus>)
    ensures HasInkEntry(Kept(s)) <==> exists j :: 0 <= j < |s| && s[j].key != "" && s[j].status != AUTO_DISABLED
  {
    if s != [] {
      var front, last := s[..|s| - 1], s[|s| - 1];
      KeptInk(front);
      if j :| 0 <= j < |front| && front[j].key != "" && front[j].status != AUTO_DISABLED {
        assert s[j].key != "" && s[j].status != AUTO_DISABLED;
      }
      if i :| 0 <= i < |Kept(front)| && Kept(front)[i].key != "" {
        assert Kept(s)[i].key != "";
      }
      if last.key != "" && last.status != AUTO_DISABLED {
        assert Kept(s)[|Kept(front)|].key != "";
      }
    }
  }

  lemma {:induction false} KeptIsPart(s: seq<KeyStatus>)
    ensures forall i :: 0 <= i < |Kept(s)| ==> Kept(s)[i] in s && Kept(s)[i].status != AUTO_DISABLED
  {
    if s != [] {
      KeptIsPart(s[..|s| - 1]);
    }
  }

  // ---- both ways agree when some ink is kept ----

  /** The step at the last entry of `a`, with everything behind it already decided. */
  lemma StepBefore(a: seq<KeyStatus>, b: seq<KeyStatus>, arrays: Arrays)
    requires a != [] && |a + b| > 1
    ensures var front, last := a[..|a| - 1], a[|a| - 1];
            OneByOne(a + b, |a|, arrays) ==
            if last.status == AUTO_DISABLED then OneByOne(Reread(KeysOf(a + b), front + b, arrays), |front|, arrays)
            else OneByOne(front + ([last] + b), |front|, arrays)
  {
    var front, last := a[..|a| - 1], a[|a| - 1];
    assert (a + b)[|a| - 1] == last;
    assert RemoveAt(a + b, |a| - 1) == front + b;
    assert a + b == front + ([last] + b);
  }

  lemma PlainPart(s: seq<KeyStatus>, t: seq<KeyStatus>)
    requires PlainEntries(s) && forall i :: 0 <= i < |t| ==> t[i] in s
    ensures PlainEntries(t)
  {
    forall i | 0 <= i < |t| ensures NoNewline(t[i].key) && !LooksLikeArray(t[i].key) {
      var j :| 0 <= j < |s| && s[j] == t[i];
      assert KeysOf(s)[j] == t[i].key;
    }
  }

  /** Storing entries with ink at the end, after deletion of one in front of it. */
  lemma StoredBefore(front: seq<KeyStatus>, b: seq<KeyStatus>, current: seq<string>, arrays: Arrays)
    requires PlainEntries(front + b) && b != [] && b[|b| - 1].key != ""
    ensures Reread(current, front + b, arrays) == Trimmed(front + b)
    ensures front != [] && front[0].key != "" ==> Trimmed(front + b) == front + b
  {
    assert (front + b)[|front + b| - 1].key != "";
    RereadOfPlain(current, front + b, arrays);
    if front != [] && front[0].key != "" {
      TrimmedIdentity(front + b);
    }
  }

  /** Deleting the last entry of `a` when some ink follows: what is stored is what is left. */
  lemma DeletedBefore(front: seq<KeyStatus>, last: KeyStatus, b: seq<KeyStatus>, arrays: Arrays)
    requires PlainEntries(front + [last] + b) && b != [] && b[|b| - 1].key != "" && last.status == AUTO_DISABLED
    ensures OneByOne(front + [last] + b, |front| + 1, arrays) == OneByOne(Trimmed(front + b), |front|, arrays)
    ensures PlainEntries(front + b) && (front != [] && front[0].key != "" ==> Trimmed(front + b) == front + b)
  {
    var a := front + [last];
    assert a[..|a| - 1] == front;
    StepBefore(a, b, arrays);
    PlainPart(a + b, front + b);
    StoredBefore(front, b, KeysOf(a + b), arrays);
  }

  lemma KeptBefore(front: seq<KeyStatus>, last: KeyStatus, b: seq<KeyStatus>)
    ensures Kept(front + [last]) + b == Kept(front) + (if last.status == AUTO_DISABLED then b else [last] + b)
  {
    assert (front + [last])[..|front|] == front;
  }

  lemma {:induction false} OneByOneBefore(a: seq<KeyStatus>, b: seq<KeyStatus>, arrays: Arrays)
    requires PlainEntries(a + b) && b != [] && b[|b| - 1].key != "" && a != [] && a[0].key != ""
    ensures OneByOne(a + b, |a|, arrays) == Trimmed(Kept(a) + b)
    decreases |a|, 1
  {
    var front, last := a[..|a| - 1], a[|a| - 1];
    assert a == front + [last];
    if last.status == AUTO_DISABLED {
      OneByOneDeletes(front, last, b, arrays);
    } else {
      OneByOneKeeps(front, last, b, arrays);
    }
  }

  lemma {:induction false} OneByOneDeletes(front: seq<KeyStatus>, last: KeyStatus, b: seq<KeyStatus>, arrays: Arrays)
    requires PlainEntries(front + [last] + b) && b != [] && b[|b| - 1].key != "" && (front + [last])[0].key != ""
    requires last.status == AUTO_DISABLED
    ensures OneByOne(front + [last] + b, |front| + 1, arrays) == Trimmed(Kept(front + [last]) + b)
    decreases |front| + 1, 0
  {
    KeptBefore(front, last, b);
    DeletedBefore(front, last, b, arrays);
    if front == [] {
      assert Kept(front) + b == front + b;
      assert OneByOne(Trimmed(front + b), 0, arrays) == Trimmed(front + b);
    } else {
      OneByOneBefore(front, b, arrays);
    }
  }

  lemma {:induction false} OneByOneKeeps(front: seq<KeyStatus>, last: KeyStatus, b: seq<KeyStatus>, arrays: Arrays)
    requires PlainEntries(front + [last] + b) && b != [] && b[|b| - 1].key != "" && (front + [last])[0].key != ""
    requires last.status != AUTO_DISABLED
    ensures OneByOne(front + [last] + b, |front| + 1, arrays) == Trimmed(Kept(front + [last]) + b)
    decreases |front| + 1, 0
  {
    var rest := [last] + b;
    KeptBefore(front, last, b);
    assert front + [last] + b == front + rest;
    SkipOne(front + rest, |front|, arrays);
    if front == [] {
      assert front + rest == rest && Kept(front) + rest == rest;
      TrimmedIdentity(rest);
    } else {
      OneByOneBefore(front, rest, arrays);
    }
  }

  /** Deleting the last entry of all: the blank entries before it go as well. */
  lemma DeletedLast(s: seq<KeyStatus>, arrays: Arrays)
    requires PlainEntries(s) && InkAtEnds(s) && |s| > 1 && s[|s| - 1].status == AUTO_DISABLED
    ensures var t := DropBack(s[..|s| - 1]);
            PlainEntries(t) && InkAtEnds(t) && OneByOne(s, |s|, arrays) == OneByOne(t, |t|, arrays)
  {
    var front := s[..|s| - 1];
    var t := DropBack(front);
    assert RemoveAt(s, |s| - 1) == front;
    PlainPart(s, front);
    assert front[0].key != "";
    RereadOfPlain(KeysOf(s), front, arrays);
    TrimmedIsDropBack(front);
    OneByOneSkips(t, |front|, |t|, arrays);
    PlainPart(front, t);
  }

  lemma {:induction false} OneByOneKeepsInk(s: seq<KeyStatus>, arrays: Arrays)
    requires PlainEntries(s) && InkAtEnds(s) && HasInkEntry(Kept(s))
    ensures OneByOne(s, |s|, arrays) == Trimmed(Kept(s))
    decreases |s|
  {
    if s[|s| - 1].status == AUTO_DISABLED {
      InkElsewhere(s);
      DeletedLast(s, arrays);
      OneByOneKeepsInk(DropBack(s[..|s| - 1]), arrays);
    } else {
      OneByOneFromKept(s, arrays);
    }
  }

  lemma InkElsewhere(s: seq<KeyStatus>)
    requires s != [] && s[|s| - 1].status == AUTO_DISABLED && HasInkEntry(Kept(s))
    ensures |s| > 1
    ensures var t := DropBack(s[..|s| - 1]); HasInkEntry(Kept(t)) && Trimmed(Kept(t)) == Trimmed(Kept(s))
  {
    assert Kept(s) == Kept(s[..|s| - 1]);
    KeptOfDropBack(s[..|s| - 1]);
  }

  lemma OneByOneFromKept(s: seq<KeyStatus>, arrays: Arrays)
    requires PlainEntries(s) && InkAtEnds(s) && s[|s| - 1].status != AUTO_DISABLED
    ensures OneByOne(s, |s|, arrays) == Trimmed(Kept(s))
  {
    if |s| == 1 {
      OneEntry(s, arrays);
    } else {
      SkipOne(s, |s| - 1, arrays);
      OneByOneAt(s, |s| - 1, arrays);
      KeptLast(s);
    }
  }

  lemma OneEntry(s: seq<KeyStatus>, arrays: Arrays)
    requires |s| == 1 && s[0].key != "" && s[0].status != AUTO_DISABLED
    ensures OneByOne(s, |s|, arrays) == Trimmed(Kept(s))
  {
    assert Kept(s) == s;
    TrimmedIdentity(s);
  }

  lemma KeptLast(s: seq<KeyStatus>)
    requires s != [] && s[|s| - 1].status != AUTO_DISABLED
    ensures Kept(s) == Kept(s[..|s| - 1]) + s[|s| - 1..]
  {
    assert s[|s| - 1..] == [s[|s| - 1]];
  }

  lemma OneByOneAt(s: seq<KeyStatus>, i: nat, arrays: Arrays)
    requires PlainEntries(s) && InkAtEnds(s) && 0 < i < |s|
    ensures OneByOne(s, i, arrays) == Trimmed(Kept(s[..i]) + s[i..])
  {
    assert s[..i] + s[i..] == s;
    OneByOneBefore(s[..i], s[i..], arrays);
  }

  // ---- and differ when none is ----

  /** If all entries with ink are auto-disabled, the first one stays, still auto-disabled. */
  lemma {:induction false} OneByOneLeavesOne(s: seq<KeyStatus>, arrays: Arrays)
    requires PlainEntries(s) && InkAtEnds(s)
    requires forall j :: 0 <= j < |s| && s[j].key != "" ==> s[j].status == AUTO_DISABLED
    ensures OneByOne(s, |s|, arrays) != [] && OneByOne(s, |s|, arrays)[0].status == AUTO_DISABLED
    decreases |s|
  {
    if |s| > 1 {
      DeletedLast(s, arrays);
      OneByOneLeavesOne(DropBack(s[..|s| - 1]), arrays);
    } else {
      assert OneByOne(s, 1, arrays) == OneByOne(s, 0, arrays) == s;
    }
  }

  lemma BulkLeavesNoneDisabled(s: seq<KeyStatus>, arrays: Arrays)
    requires Kept(s) != s
    ensures forall j :: 0 <= j < |Bulk(s, arrays)| ==> Bulk(s, arrays)[j].status != AUTO_DISABLED
  {
    KeptIsPart(s);
  }

  /** Entries as a channel reports them: a column that was read begins and ends with ink, or is one blank key. */
  predicate AsRead(s: seq<KeyStatus>)
  {
    s == [] || KeysOf(s) == [""] || InkAtEnds(s)
  }

  lemma ReportedAsRead(c: Info, column: string, arrays: Arrays)
    requires ParsesArrays(arrays) && c.keys == GetKeys(column, arrays)
    ensures AsRead(Observe(c))
  {
    ReadKeysHaveEnds(column, arrays);
    assert KeysOf(Observe(c)) == c.keys;
  }

  /**
   For keys without newlines, none of which begins like an array: deleting all auto-disabled keys at once equals
   deleting them one at a time if and only if there is none to delete or some key that is not blank stays.
   */
  lemma BulkAgreesExactlyWhenInkRemains(s: seq<KeyStatus>, arrays: Arrays)
    requires PlainEntries(s) && AsRead(s)
    ensures Bulk(s, arrays) == OneByOne(s, |s|, arrays) <==>
            || (forall j :: 0 <= j < |s| ==> s[j].status != AUTO_DISABLED)
            || (exists j :: 0 <= j < |s| && s[j].key != "" && s[j].status != AUTO_DISABLED)
  {
    KeptOfNone(s);
    KeptInk(s);
    if Kept(s) == s {
      NothingBelow(s, |s|, arrays);
    } else if HasInkEntry(Kept(s)) {
      KeptIsPart(s);
      PlainPart(s, Kept(s));
      RereadOfPlain(KeysOf(s), Kept(s), arrays);
      InkMeansEnds(s);
      OneByOneKeepsInk(s, arrays);
    } else {
      BulkLeavesNoneDisabled(s, arrays);
      if InkAtEnds(s) {
        OneByOneLeavesOne(s, arrays);
      } else {
        assert |s| == |KeysOf(s)| == 1;
        assert OneByOne(s, 1, arrays) == OneByOne(s, 0, arrays) == s;
      }
    }
  }

  lemma InkMeansEnds(s: seq<KeyStatus>)
    requires AsRead(s) && exists j :: 0 <= j < |s| && s[j].key != ""
    ensures InkAtEnds(s)
  {
    var j :| 0 <= j < |s| && s[j].key != "";
    assert KeysOf(s)[j] != "";
  }

  // ---- keys over several lines ----

  function Enabled(key: string): KeyStatus
  {
    KeyStatus(key, ENABLED, 0, "")
  }

  function Disabled(key: string): KeyStatus
  {
    KeyStatus(key, AUTO_DISABLED, 0, "")
  }

  /** Plain keys with ink at both ends are read back whole, under the statuses of the entries they were joined from. */
  lemma LinesReadBack(current: seq<string>, s: seq<KeyStatus>, lines: seq<string>, arrays: Arrays)
    requires PlainKeys(lines) && lines != [] && lines[0] != "" && lines[|lines| - 1] != "" && Join(KeysOf(s)) == Join(lines)
    ensures Reread(current, s, arrays) == Relabelled(lines, s)
  {
    PlainKeysReadBack(lines, arrays);
  }

  /**
   A key over two lines, which only a channel stored as an array can hold, is split by the first write. One at a time
   the split moves a status to the wrong key, and the wrong key is deleted next.
   */
  lemma KeyOverTwoLinesIsMistaken(p: string, q: string, y: string, x: string, arrays: Arrays)
    requires PlainKeys([p, q, y, x]) && p != "" && q != "" && y != "" && x != "" && q != y
    ensures var s := [Enabled(p + ['\n'] + q), Disabled(y), Disabled(x)];
            && Bulk(s, arrays) == [Enabled(p), Enabled(q)]
            && OneByOne(s, |s|, arrays) == [Enabled(p), Enabled(y)]
            && Bulk(s, arrays) != OneByOne(s, |s|, arrays)
  {
    var s := [Enabled(p + ['\n'] + q), Disabled(y), Disabled(x)];
    PlainSome([p, q, y, x]);
    BulkSplitsKey(p, q, s, arrays);
    FirstDeletionSplitsKey(p, q, y, s, arrays);
    DeletedAt(s, 2, arrays);
    DeleteSecondLine([Enabled(p), Disabled(q), Enabled(y)], arrays);
  }

  lemma PlainSome(keys: seq<string>)
    requires |keys| == 4 && PlainKeys(keys)
    ensures PlainKeys([keys[0], keys[1]]) && PlainKeys([keys[0], keys[1], keys[2]])
    ensures PlainEntries([Enabled(keys[0]), Enabled(keys[2])])
  {
    assert NoNewline(keys[0]) && NoNewline(keys[1]) && NoNewline(keys[2]);
    assert !LooksLikeArray(keys[0]) && !LooksLikeArray(keys[1]) && !LooksLikeArray(keys[2]);
  }

  lemma BulkSplitsKey(p: string, q: string, s: seq<KeyStatus>, arrays: Arrays)
    requires PlainKeys([p, q]) && p != "" && q != "" && |s| == 3 && s[0] == Enabled(p + ['\n'] + q)
    requires s[1].status == AUTO_DISABLED && s[2].status == AUTO_DISABLED
    ensures Bulk(s, arrays) == [Enabled(p), Enabled(q)]
  {
    KeptOfTwoLines(s);
    JoinOfTwoLines(p, q, "");
    LinesReadBack(KeysOf(s), [s[0]], [p, q], arrays);
    assert Relabelled([p, q], [s[0]]) == [Enabled(p), Enabled(q)];
  }

  lemma FirstDeletionSplitsKey(p: string, q: string, y: string, s: seq<KeyStatus>, arrays: Arrays)
    requires PlainKeys([p, q, y]) && p != "" && y != ""
    requires |s| == 3 && s[0] == Enabled(p + ['\n'] + q) && s[1] == Disabled(y)
    ensures Reread(KeysOf(s), RemoveAt(s, 2), arrays) == [Enabled(p), Disabled(q), Enabled(y)]
  {
    assert RemoveAt(s, 2) == [s[0], s[1]];
    JoinOfTwoLines(p, q, y);
    LinesReadBack(KeysOf(s), [s[0], s[1]], [p, q, y], arrays);
    assert Relabelled([p, q, y], [s[0], s[1]]) == [Enabled(p), Disabled(q), Enabled(y)];
  }

  lemma KeptOfTwoLines(s: seq<KeyStatus>)
    requires |s| == 3 && s[0].status != AUTO_DISABLED && s[1].status == AUTO_DISABLED && s[2].status == AUTO_DISABLED
    ensures Kept(s) == [s[0]]
  {
    assert s[..2] == [s[0], s[1]] && s[..2][..1] == [s[0]];
    assert Kept([s[0]]) == [s[0]];
  }

  lemma JoinOfTwoLines(p: string, q: string, y: string)
    ensures Join([p + ['\n'] + q]) == Join([p, q])
    ensures Join([p + ['\n'] + q, y]) == Join([p, q, y])
  {
    assert [p, q][1..] == [q];
    assert [p + ['\n'] + q, y][1..] == [y];
    assert [p, q, y][1..] == [q, y] && [q, y][1..] == [y];
    assert p + ['\n'] + q + ['\n'] + y == p + ['\n'] + (q + ['\n'] + y);
  }

  lemma DeleteSecondLine(t: seq<KeyStatus>, arrays: Arrays)
    requires |t| == 3 && t[0].status != AUTO_DISABLED && t[1].status == AUTO_DISABLED && t[2].status != AUTO_DISABLED
    requires t[0].key != "" && t[2].key != "" && PlainEntries([t[0], t[2]])
    ensures OneByOne(t, 2, arrays) == [t[0], t[2]]
  {
    var rest := [t[0], t[2]];
    assert RemoveAt(t, 1) == rest;
    DeletedAt(t, 1, arrays);
    assert rest[0].key != "";
    RereadOfPlain(KeysOf(t), rest, arrays);
    TrimmedIdentity(rest);
    NothingBelow(rest, 1, arrays);
  }
}
