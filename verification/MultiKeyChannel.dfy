/**
 A channel that holds several upstream keys in one text column. The status, disabling time and disabling reason of a
 key live in maps keyed by the position of the key, so deleting keys renumbers three maps alongside the key list, and
 every write sends the keys through the column and back.
 */
module MultiKeyChannel {
  import opened Wrappers
  import opened KeyText

  const ENABLED := 1
  const MANUALLY_DISABLED := 2
  const AUTO_DISABLED := 3

  /** What the status query reports about one key. */
  datatype KeyStatus = KeyStatus(key: string, status: int, disabledTime: int, reason: string)

  /** Keys with their maps: a missing map entry means enabled, time zero, no reason. */
  datatype Info = Info(keys: seq<string>, status: map<int, int>, time: map<int, int>, reason: map<int, string>)

  predicate InRange(c: Info)
  {
    && (forall i :: i in c.status ==> 0 <= i < |c.keys|)
    && (forall i :: i in c.time ==> 0 <= i < |c.keys|)
    && (forall i :: i in c.reason ==> 0 <= i < |c.keys|)
  }

  function StatusAt(c: Info, i: int): int
  {
    if i in c.status then c.status[i] else ENABLED
  }

  function EntryAt(c: Info, i: nat): KeyStatus
    requires i < |c.keys|
  {
    var status := StatusAt(c, i);
    KeyStatus(c.keys[i], status,
              if status != ENABLED && i in c.time then c.time[i] else 0,
              if status != ENABLED && i in c.reason then c.reason[i] else "")
  }

  /** The unfiltered status list, one entry per key in key order. */
  function Observe(c: Info): (s: seq<KeyStatus>)
    ensures |s| == |c.keys|
    ensures forall i :: 0 <= i < |s| ==> s[i] == EntryAt(c, i)
  {
    seq(|c.keys|, i requires 0 <= i < |c.keys| => EntryAt(c, i))
  }

  function RemoveAt(s: seq<KeyStatus>, k: nat): seq<KeyStatus>
    requires k < |s|
  {
    s[..k] + s[k + 1..]
  }

  /** The entries that are not auto-disabled, in order. */
  function Kept(s: seq<KeyStatus>): (t: seq<KeyStatus>)
    ensures |t| <= |s|
  {
    if s == [] then []
    else
      var front := Kept(s[..|s| - 1]);
      if s[|s| - 1].status == AUTO_DISABLED then front else front + [s[|s| - 1]]
  }

  ghost function PrefixWithout(s: seq<KeyStatus>, k: nat, i: nat): seq<KeyStatus>
    requires k < |s| && i <= |s|
  {
    if i <= k then s[..i] else s[..k] + s[k + 1..i]
  }

  lemma PrefixWithoutStep(s: seq<KeyStatus>, k: nat, i: nat)
    requires k < |s| && i < |s|
    ensures PrefixWithout(s, k, i + 1) == PrefixWithout(s, k, i) + (if i == k then [] else [s[i]])
  {
    if i < k {
      assert s[..i + 1] == s[..i] + [s[i]];
    } else if i > k {
      assert s[k + 1..i + 1] == s[k + 1..i] + [s[i]];
    }
  }

  lemma PrefixWithoutAll(s: seq<KeyStatus>, k: nat)
    requires k < |s|
    ensures PrefixWithout(s, k, |s|) == RemoveAt(s, k)
  {
    assert s[k + 1..|s|] == s[k + 1..];
  }

  lemma PrefixStep(s: seq<KeyStatus>, i: nat, status: int)
    requires i < |s|
    ensures Kept(s[..i + 1]) == if s[i].status == AUTO_DISABLED then Kept(s[..i]) else Kept(s[..i]) + [s[i]]
    ensures CountStatus(s[..i + 1], status) == CountStatus(s[..i], status) + (if s[i].status == status then 1 else 0)
  {
    assert s[..i + 1][..i] == s[..i];
  }

  function CountStatus(s: seq<KeyStatus>, status: int): (n: nat)
    ensures n <= |s|
  {
    if s == [] then 0 else CountStatus(s[..|s| - 1], status) + (if s[|s| - 1].status == status then 1 else 0)
  }

  function AllEnabled(s: seq<KeyStatus>): (t: seq<KeyStatus>)
    ensures |t| == |s|
  {
    seq(|s|, i requires 0 <= i < |s| => KeyStatus(s[i].key, ENABLED, 0, ""))
  }

  /** Adding one key with its own map entries leaves the earlier entries alone. */
  lemma ObserveExtended(c: Info, d: Info)
    requires InRange(c) && |d.keys| == |c.keys| + 1 && d.keys[..|c.keys|] == c.keys
    requires forall i :: i in d.status && i != |c.keys| <==> i in c.status
    requires forall i :: i in d.time && i != |c.keys| <==> i in c.time
    requires forall i :: i in d.reason && i != |c.keys| <==> i in c.reason
    requires forall i :: i in c.status ==> d.status[i] == c.status[i]
    requires forall i :: i in c.time ==> d.time[i] == c.time[i]
    requires forall i :: i in c.reason ==> d.reason[i] == c.reason[i]
    ensures InRange(d)
    ensures Observe(d) == Observe(c) + [EntryAt(d, |c.keys|)]
  {
    forall i | 0 <= i < |c.keys| ensures EntryAt(d, i) == EntryAt(c, i) {
      assert d.keys[i] == d.keys[..|c.keys|][i];
    }
  }

  datatype Outcome = Done | MissingIndex | OutOfRange | LastKey | NothingToDo | WriteFailed

  // ---- what is left of a status list once its keys were stored ----

  function KeysOf(s: seq<KeyStatus>): (k: seq<string>)
    ensures |k| == |s| && forall i :: 0 <= i < |k| ==> k[i] == s[i].key
  {
    seq(|s|, i requires 0 <= i < |s| => s[i].key)
  }

  /** The entries position by position, for the keys that were read back; keys beyond them read as enabled. */
  function Relabelled(keys: seq<string>, s: seq<KeyStatus>): (t: seq<KeyStatus>)
    ensures |t| == |keys|
  {
    seq(|keys|, i requires 0 <= i < |keys| =>
                  if i < |s| then s[i].(key := keys[i]) else KeyStatus(keys[i], ENABLED, 0, ""))
  }

  /**
   Storing the keys of `rest` in a channel with keys `current`, and reading the column again. Keys that join to an empty
   text are not stored, because a partial update leaves out empty fields: the old keys stay.
   */
  function Reread(current: seq<string>, rest: seq<KeyStatus>, arrays: Arrays): seq<KeyStatus>
  {
    var text := Join(KeysOf(rest));
    Relabelled(if text == "" then current else GetKeys(text, arrays), rest)
  }

  /** What deleting all auto-disabled entries at once leaves behind. */
  function Bulk(s: seq<KeyStatus>, arrays: Arrays): seq<KeyStatus>
  {
    if Kept(s) == s then s else Reread(KeysOf(s), Kept(s), arrays)
  }

  /** How many of the first `n` positions are enabled. */
  function EnabledBelow(c: Info, n: nat): nat
  {
    if n == 0 then 0 else EnabledBelow(c, n - 1) + (if StatusAt(c, n - 1) == ENABLED then 1 else 0)
  }

  lemma {:induction false} EnabledBelowCounts(c: Info, n: nat)
    requires n <= |c.keys|
    ensures EnabledBelow(c, n) == CountStatus(Observe(c)[..n], ENABLED)
  {
    if n > 0 {
      EnabledBelowCounts(c, n - 1);
      assert Observe(c)[..n][..n - 1] == Observe(c)[..n - 1];
    }
  }

  /** The stored maps of `rest`, cut off at `size`, observed with other keys. */
  lemma StoredObservation(rest: Info, keys: seq<string>, size: nat)
    requires InRange(rest) && |keys| <= size
    ensures Observe(Info(keys, map i | i in rest.status && i < size :: rest.status[i], rest.time, rest.reason))
         == Relabelled(keys, Observe(rest))
  {
  }

  class Channel {
    const arrays: Arrays
    var column: string
    var multiKeySize: int
    var statusList: map<int, int>
    var disabledTime: map<int, int>
    var disabledReason: map<int, string>

    function Keys(): seq<string>
      reads this
    {
      GetKeys(column, arrays)
    }

    function Value(): Info
      reads this
    {
      Info(Keys(), statusList, disabledTime, disabledReason)
    }

    /** The size counts the stored keys, and no status lies beyond it. */
    ghost predicate Valid()
      reads this
    {
      && multiKeySize == |CountedKeys(column, arrays)|
      && forall i :: i in statusList ==> 0 <= i < multiKeySize
    }

    function Status(): seq<KeyStatus>
      reads this
    {
      Observe(Value())
    }

    constructor (column: string, arrays: Arrays)
      ensures Valid() && this.column == column && this.arrays == arrays
      ensures Status() == Observe(Info(GetKeys(column, arrays), map[], map[], map[]))
    {
      this.column, this.arrays := column, arrays;
      multiKeySize := |CountedKeys(column, arrays)|;
      statusList, disabledTime, disabledReason := map[], map[], map[];
    }

    /** The status query before filtering and paging, with its three counters. */
    method GetKeyStatus() returns (list: seq<KeyStatus>, enabled: nat, manual: nat, auto: nat)
      ensures list == Status()
      ensures enabled == CountStatus(list, 1) && manual == CountStatus(list, 2) && auto == CountStatus(list, 3)
      // A position without a status is enabled, with status 1; time and reason are reported only for the others.
      ensures |list| == |Keys()|
      ensures forall i :: 0 <= i < |list| ==>
                && list[i].key == Keys()[i]
                && list[i].status == (if i in statusList then statusList[i] else 1)
                && list[i].disabledTime == (if list[i].status != 1 && i in disabledTime then disabledTime[i] else 0)
                && list[i].reason == (if list[i].status != 1 && i in disabledReason then disabledReason[i] else "")
    {
      list, enabled, manual, auto := [], 0, 0, 0;
      var keys := Keys();
      for i := 0 to |keys|
        invariant list == Status()[..i]
        invariant enabled == CountStatus(list, ENABLED)
        invariant manual == CountStatus(list, MANUALLY_DISABLED)
        invariant auto == CountStatus(list, AUTO_DISABLED)
      {
        var status := ENABLED;
        var time, reason := 0, "";
        if i in statusList {
          status := statusList[i];
        }
        if status == ENABLED {
          enabled := enabled + 1;
        } else if status == MANUALLY_DISABLED {
          manual := manual + 1;
        } else if status == AUTO_DISABLED {
          auto := auto + 1;
        }
        if status != ENABLED {
          time := if i in disabledTime then disabledTime[i] else 0;
          reason := if i in disabledReason then disabledReason[i] else "";
        }
        var entry := KeyStatus(keys[i], status, time, reason);
        assert (list + [entry])[..|list|] == list;
        list := list + [entry];
      }
      assert Status()[..|keys|] == Status();
    }

    /**
     Writing the row back: the size follows the text that is then stored, statuses beyond it are dropped, and an empty
     text leaves the stored one in place.
     */
    method Store(text: string, status: map<int, int>, time: map<int, int>, reason: map<int, string>, writeOk: bool)
      returns (ok: bool)
      requires forall i :: i in status ==> i >= 0
      modifies this
      ensures ok == writeOk
      ensures !ok ==> column == old(column) && Value() == old(Value()) && multiKeySize == old(multiKeySize)
      ensures ok ==> Valid() && column == (if text == "" then old(column) else text)
      ensures ok ==> statusList == (map i | i in status && i < multiKeySize :: status[i])
      ensures ok ==> disabledTime == time && disabledReason == reason
    {
      if !writeOk {
        return false;
      }
      if text != "" {
        column := text;
      }
      multiKeySize := |CountedKeys(column, arrays)|;
      statusList := map i | i in status && i < multiKeySize :: status[i];
      disabledTime, disabledReason := time, reason;
      return true;
    }

    method DisableKey(keyIndex: Option<int>, writeOk: bool) returns (r: Outcome)
      requires Valid()
      modifies this
      ensures Valid() && column == old(column)
      ensures r.Done? <==> keyIndex.Some? && 0 <= keyIndex.value < multiKeySize && writeOk
      // The stored time and reason of an earlier disabling stay and are reported again.
      ensures Value() == if r.Done? then old(Value()).(status := old(statusList)[keyIndex.value := 2])
                         else old(Value())
      ensures r.Done? ==> forall i :: 0 <= i < |Keys()| && i != keyIndex.value ==> Status()[i] == old(Status())[i]
    {
      if keyIndex.None? {
        return MissingIndex;
      }
      if keyIndex.value < 0 || keyIndex.value >= multiKeySize {
        return OutOfRange;
      }
      var ok := Store(column, statusList[keyIndex.value := MANUALLY_DISABLED], disabledTime, disabledReason, writeOk);
      return if ok then Done else WriteFailed;
    }

    method EnableKey(keyIndex: Option<int>, writeOk: bool) returns (r: Outcome)
      requires Valid()
      modifies this
      ensures Valid() && column == old(column)
      ensures r.Done? <==> keyIndex.Some? && 0 <= keyIndex.value < multiKeySize && writeOk
      ensures !r.Done? ==> Value() == old(Value())
      ensures r.Done? ==> forall i :: 0 <= i < |Keys()| ==>
                            Status()[i] == if i == keyIndex.value then KeyStatus(Keys()[i], ENABLED, 0, "") else old(Status())[i]
      ensures r.Done? ==> keyIndex.value !in disabledTime && keyIndex.value !in disabledReason
    {
      if keyIndex.None? {
        return MissingIndex;
      }
      if keyIndex.value < 0 || keyIndex.value >= multiKeySize {
        return OutOfRange;
      }
      var ok := Store(column, statusList - {keyIndex.value}, disabledTime - {keyIndex.value},
                      disabledReason - {keyIndex.value}, writeOk);
      return if ok then Done else WriteFailed;
    }

    method EnableAllKeys(writeOk: bool) returns (r: Outcome)
      requires Valid()
      modifies this
      ensures Valid() && column == old(column)
      ensures r == if writeOk then Done else WriteFailed
      ensures Status() == if writeOk then AllEnabled(old(Status())) else old(Status())
    {
      var ok := Store(column, map[], map[], map[], writeOk);
      return if ok then Done else WriteFailed;
    }

    method DisableAllKeys(writeOk: bool) returns (r: Outcome, disabledCount: nat)
      requires Valid()
      modifies this
      ensures Valid() && column == old(column)
      ensures disabledCount == EnabledBelow(old(Value()), old(multiKeySize))
      ensures r == if disabledCount == 0 then NothingToDo else if writeOk then Done else WriteFailed
      ensures !r.Done? ==> Value() == old(Value())
      ensures r.Done? ==> Value() == old(Value()).(status := statusList)
      ensures r.Done? ==> forall i :: 0 <= i < multiKeySize ==>
                                        StatusAt(Value(), i) == if StatusAt(old(Value()), i) == 1 then 2
                                                                else StatusAt(old(Value()), i)
    {
      var status := statusList;
      disabledCount := 0;
      for i := 0 to multiKeySize
        modifies {}
        invariant forall j :: j in status <==> j in statusList || (0 <= j < i && StatusAt(Value(), j) == ENABLED)
        invariant forall j :: j in status ==>
                                status[j] == if 0 <= j < i && StatusAt(Value(), j) == ENABLED then MANUALLY_DISABLED
                                             else statusList[j]
        invariant disabledCount == EnabledBelow(Value(), i)
      {
        if StatusAt(Value(), i) == ENABLED {
          status := status[i := MANUALLY_DISABLED];
          disabledCount := disabledCount + 1;
        }
      }
      if disabledCount == 0 {
        return NothingToDo, 0;
      }
      var ok := Store(column, status, disabledTime, disabledReason, writeOk);
      r := if ok then Done else WriteFailed;
    }

    /**
     The key at position `i` appended with its map entries under a new position. Deleting one key copies time and reason
     of every other key; deleting the disabled ones copies them only for keys that are not enabled.
     */
    method CopyKey(rest: Info, i: nat, evenEnabled: bool) returns (extended: Info)
      requires InRange(rest) && i < |Keys()|
      ensures InRange(extended)
      ensures Observe(extended) == Observe(rest) + [Status()[i]]
    {
      var newIndex := |rest.keys|;
      var remaining, newStatus, newTime, newReason := rest.keys + [Keys()[i]], rest.status, rest.time, rest.reason;
      var status := StatusAt(Value(), i);
      if status != ENABLED {
        newStatus := newStatus[newIndex := status];
      }
      if i in disabledTime && (evenEnabled || status != ENABLED) {
        newTime := newTime[newIndex := disabledTime[i]];
      }
      if i in disabledReason && (evenEnabled || status != ENABLED) {
        newReason := newReason[newIndex := disabledReason[i]];
      }
      extended := Info(remaining, newStatus, newTime, newReason);
      ObserveExtended(rest, extended);
    }

    /** The fields without key `k`, everything after it moved down by one. */
    method Without(k: nat) returns (rest: Info)
      requires k < |Keys()|
      ensures InRange(rest)
      ensures Observe(rest) == RemoveAt(Status(), k)
    {
      ghost var all := Status();
      rest := Info([], map[], map[], map[]);
      for i := 0 to |Keys()|
        invariant InRange(rest) && Observe(rest) == PrefixWithout(all, k, i)
      {
        PrefixWithoutStep(all, k, i);
        if i != k {
          rest := CopyKey(rest, i, true);
        }
      }
      PrefixWithoutAll(all, k);
    }

    /**
     Writing back keys with renumbered maps: what the channel then holds is what the column gives back of them.
     */
    method StoreKeys(rest: Info, writeOk: bool) returns (ok: bool)
      requires InRange(rest)
      modifies this
      ensures ok == writeOk
      ensures !ok ==> column == old(column) && Value() == old(Value()) && multiKeySize == old(multiKeySize)
      ensures ok ==> Valid() && Status() == Reread(old(Keys()), Observe(rest), arrays)
      ensures ok && |Keys()| == |rest.keys| ==> InRange(Value())
    {
      assert KeysOf(Observe(rest)) == rest.keys;
      ok := Store(Join(rest.keys), rest.status, rest.time, rest.reason, writeOk);
      if ok {
        StoredObservation(rest, Keys(), multiKeySize);
      }
    }

    method DeleteKey(keyIndex: Option<int>, writeOk: bool) returns (r: Outcome)
      requires Valid()
      modifies this
      ensures Valid()
      ensures r.Done? <==> keyIndex.Some? && 0 <= keyIndex.value < old(|Keys()|) && old(|Keys()|) > 1 && writeOk
      ensures r.LastKey? <==> keyIndex.Some? && 0 <= keyIndex.value < multiKeySize && old(|Keys()|) <= 1
      ensures !r.Done? ==> column == old(column) && Value() == old(Value())
      ensures r.Done? ==> Status() == Reread(old(Keys()), RemoveAt(old(Status()), keyIndex.value), arrays)
      ensures r.Done? && |Keys()| == |old(Keys())| - 1 ==> InRange(Value())
    {
      if keyIndex.None? {
        return MissingIndex;
      }
      if keyIndex.value < 0 || keyIndex.value >= multiKeySize {
        return OutOfRange;
      }
      var keys := Keys();
      if keys == [] {
        return LastKey;
      }
      var rest := Without(keyIndex.value);
      assert |rest.keys| == |Observe(rest)| == |keys| - 1;
      if |rest.keys| == 0 {
        return LastKey;
      }
      var ok := StoreKeys(rest, writeOk);
      return if ok then Done else WriteFailed;
    }

    /** The fields without the auto-disabled keys, and how many of those there are. */
    method WithoutDisabled() returns (rest: Info, deletedCount: nat)
      ensures InRange(rest)
      ensures Observe(rest) == Kept(Status())
      ensures deletedCount == CountStatus(Status(), AUTO_DISABLED)
    {
      ghost var all := Status();
      rest, deletedCount := Info([], map[], map[], map[]), 0;
      for i := 0 to |Keys()|
        invariant deletedCount == CountStatus(all[..i], AUTO_DISABLED)
        invariant InRange(rest) && Observe(rest) == Kept(all[..i])
      {
        PrefixStep(all, i, AUTO_DISABLED);
        if StatusAt(Value(), i) == AUTO_DISABLED {
          deletedCount := deletedCount + 1;
        } else {
          rest := CopyKey(rest, i, false);
        }
      }
      assert all[..|all|] == all;
    }

    method DeleteDisabledKeys(writeOk: bool) returns (r: Outcome, deletedCount: nat)
      requires Valid()
      modifies this
      ensures Valid()
      ensures deletedCount == CountStatus(old(Status()), 3)
      ensures r == if deletedCount == 0 then NothingToDo else if writeOk then Done else WriteFailed
      ensures !r.Done? ==> column == old(column) && Value() == old(Value())
      ensures !r.WriteFailed? ==> Status() == Bulk(old(Status()), arrays)
      ensures r.Done? && |Keys()| == |old(Keys())| - deletedCount ==> InRange(Value())
    {
      var rest;
      rest, deletedCount := WithoutDisabled();
      KeptIsIdentity(Status());
      assert KeysOf(Status()) == Keys();
      if deletedCount == 0 {
        return NothingToDo, 0;
      }
      var ok := StoreKeys(rest, writeOk);
      r := if ok then Done else WriteFailed;
    }
  }

  lemma {:induction false} KeptIsIdentity(s: seq<KeyStatus>)
    ensures |Kept(s)| + CountStatus(s, AUTO_DISABLED) == |s|
    ensures CountStatus(s, AUTO_DISABLED) == 0 <==> Kept(s) == s
  {
    if s != [] {
      KeptIsIdentity(s[..|s| - 1]);
    }
  }

  // ---- paging ----

  /** Rounding up, with at least one page. */
  function TotalPages(n: nat, pageSize: nat): (t: nat)
    requires pageSize > 0
    ensures t >= 1
  {
    CeilNonNegative(n + pageSize - 1, pageSize);
    var t := (n + pageSize - 1) / pageSize;
    if t == 0 then 1 else t
  }

  lemma CeilNonNegative(a: nat, b: nat)
    requires b > 0
    ensures a / b >= 0
  {
  }

  function Slice(list: seq<KeyStatus>, start: nat, size: nat): seq<KeyStatus>
  {
    if start < |list| then list[start..if start + size > |list| then |list| else start + size] else []
  }

  function Page(list: seq<KeyStatus>, p: nat, size: nat): seq<KeyStatus>
    requires p >= 1
  {
    Slice(list, (p - 1) * size, size)
  }

  method SliceOf(list: seq<KeyStatus>, start: nat, size: nat) returns (entries: seq<KeyStatus>)
    ensures entries == Slice(list, start, size)
  {
    var end := start + size;
    if end > |list| {
      end := |list|;
    }
    entries := [];
    if start < |list| {
      entries := list[start..end];
    }
  }

  /** The page of a filtered list a query gets: defaults for missing parameters, then clamped to the last page. */
  method PageOf(list: seq<KeyStatus>, page: int, pageSize: int) returns (entries: seq<KeyStatus>, p: nat, size: nat)
    ensures size == (if pageSize <= 0 then 50 else pageSize) && 1 <= p <= TotalPages(|list|, size)
    ensures p == if page <= 0 then 1 else if page > TotalPages(|list|, size) then TotalPages(|list|, size) else page
    ensures entries == Page(list, p, size)
  {
    p := if page <= 0 then 1 else page;
    size := if pageSize <= 0 then 50 else pageSize;
    var totalPages := TotalPages(|list|, size);
    if p > totalPages {
      p := totalPages;
    }
    OffsetIsNat(p - 1, size);
    entries := SliceOf(list, (p - 1) * size, size);
  }

  lemma OffsetIsNat(p: nat, size: nat)
    ensures p * size >= 0
  {
  }

  function FirstPages(list: seq<KeyStatus>, n: nat, size: nat): seq<KeyStatus>
  {
    if n == 0 then [] else FirstPages(list, n - 1, size) + Page(list, n, size)
  }

  lemma {:induction false} FirstPagesArePrefix(list: seq<KeyStatus>, n: nat, size: nat)
    ensures FirstPages(list, n, size) == list[..if n * size > |list| then |list| else n * size]
  {
    if n > 0 {
      FirstPagesArePrefix(list, n - 1, size);
      assert n * size == (n - 1) * size + size;
    }
  }

  /** Reading every page in order yields every entry once, in order. */
  lemma PagesCoverTheList(list: seq<KeyStatus>, size: nat)
    requires size > 0
    ensures FirstPages(list, TotalPages(|list|, size), size) == list
  {
    var n := TotalPages(|list|, size);
    FirstPagesArePrefix(list, n, size);
    assert n * size >= |list|;
  }
}
