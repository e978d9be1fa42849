/**
 The key column of a multi-key channel: keys are stored joined by newlines and read back by trimming and splitting.
 A column that begins like a JSON array is first offered to a JSON parser, which is an argument.
 */
module KeyText {
  import opened Wrappers

  function Join(keys: seq<string>): string
  {
    if keys == [] then ""
    else if |keys| == 1 then keys[0]
    else keys[0] + ['\n'] + Join(keys[1..])
  }

  function FirstNewline(t: string): (k: nat)
    ensures k <= |t| && '\n' !in t[..k]
    ensures k < |t| ==> t[k] == '\n'
  {
    if t == "" || t[0] == '\n' then 0
    else
      var k := 1 + FirstNewline(t[1..]);
      assert t[..k] == [t[0]] + t[1..][..k - 1];
      k
  }

  function Split(t: string): seq<string>
    decreases |t|
  {
    var k := FirstNewline(t);
    if k == |t| then [t] else [t[..k]] + Split(t[k + 1..])
  }

  function TrimLeft(t: string): (r: string)
    ensures |r| <= |t|
    ensures t != "" && t[0] == '\n' ==> |r| < |t|
  {
    if t != "" && t[0] == '\n' then TrimLeft(t[1..]) else t
  }

  function TrimRight(t: string): string
  {
    if t != "" && t[|t| - 1] == '\n' then TrimRight(t[..|t| - 1]) else t
  }

  function Trim(t: string): string
  {
    TrimRight(TrimLeft(t))
  }

  /** The white space that trimming removes before the column is tested for an array. */
  predicate IsSpace(c: char)
  {
    || '\t' <= c <= '\r' || '\U{2000}' <= c <= '\U{200A}'
    || c in " \U{0085}\U{00A0}\U{1680}\U{2028}\U{2029}\U{202F}\U{205F}\U{3000}"
  }

  predicate LooksLikeArray(t: string)
  {
    t != "" && (t[0] == '[' || (IsSpace(t[0]) && LooksLikeArray(t[1..])))
  }

  /** A parser of JSON arrays: the raw text of the elements, if the text is an array. */
  type Arrays = string -> Option<seq<string>>

  /** The elements of an array are not empty, and together shorter than its text. */
  ghost predicate ParsesArrays(arrays: Arrays)
  {
    forall t :: arrays(t).Some? ==>
      |Join(arrays(t).value)| < |t| && forall i :: 0 <= i < |arrays(t).value| ==> arrays(t).value[i] != ""
  }

  /** Reading the column. */
  function GetKeys(column: string, arrays: Arrays): seq<string>
  {
    if column == "" then []
    else if LooksLikeArray(column) && arrays(column).Some? then arrays(column).value
    else Split(Trim(column))
  }

  /** The keys the size of a channel is computed from; an empty array counts by its lines. */
  function CountedKeys(column: string, arrays: Arrays): seq<string>
  {
    if column != "" && GetKeys(column, arrays) == [] then Split(Trim(column)) else GetKeys(column, arrays)
  }

  /** The size is that of the key list, except that an empty array, which reads as no keys, has the size of its lines. */
  lemma SizeOfColumn(column: string, arrays: Arrays)
    ensures column == "" <==> |CountedKeys(column, arrays)| == 0
    ensures GetKeys(column, arrays) != [] || column == "" ==> CountedKeys(column, arrays) == GetKeys(column, arrays)
    ensures column != "" && GetKeys(column, arrays) == [] ==>
              arrays(column) == Some([]) && CountedKeys(column, arrays) == Split(Trim(column))
  {
    if column != "" && CountedKeys(column, arrays) == Split(Trim(column)) {
      assert Split(Trim(column)) != [];
    }
  }

  predicate NoNewline(key: string)
  {
    '\n' !in key
  }

  function Newlines(t: string): nat
  {
    if t == "" then 0 else (if t[0] == '\n' then 1 else 0) + Newlines(t[1..])
  }

  lemma {:induction false} NewlinesConcat(a: string, b: string)
    ensures Newlines(a + b) == Newlines(a) + Newlines(b)
  {
    if a == "" {
      assert a + b == b;
    } else {
      assert (a + b)[1..] == a[1..] + b;
      NewlinesConcat(a[1..], b);
    }
  }

  lemma {:induction false} NoNewlinesIn(t: string)
    requires NoNewline(t)
    ensures Newlines(t) == 0 && FirstNewline(t) == |t|
  {
    if t != "" {
      NoNewlinesIn(t[1..]);
    }
  }

  lemma {:induction false} FirstNewlineAfter(a: string, b: string)
    requires NoNewline(a)
    ensures FirstNewline(a + ['\n'] + b) == |a|
  {
    var t := a + ['\n'] + b;
    if a != "" {
      assert t[1..] == a[1..] + ['\n'] + b;
      FirstNewlineAfter(a[1..], b);
    }
  }

  lemma {:induction false} SplitJoin(keys: seq<string>)
    requires keys != [] && forall i :: 0 <= i < |keys| ==> NoNewline(keys[i])
    ensures Split(Join(keys)) == keys
  {
    if |keys| == 1 {
      NoNewlinesIn(keys[0]);
    } else {
      var t := Join(keys);
      FirstNewlineAfter(keys[0], Join(keys[1..]));
      assert t[..|keys[0]|] == keys[0] && t[|keys[0]| + 1..] == Join(keys[1..]);
      SplitJoin(keys[1..]);
    }
  }

  /** A text splits into one part more than it has newlines. */
  lemma {:induction false} SplitLength(t: string)
    ensures |Split(t)| == Newlines(t) + 1
    decreases |t|
  {
    var k := FirstNewline(t);
    NoNewlinesIn(t[..k]);
    NewlinesConcat(t[..k], t[k..]);
    assert t[..k] + t[k..] == t;
    if k < |t| {
      assert t[k..][1..] == t[k + 1..];
      SplitLength(t[k + 1..]);
    }
  }

  lemma {:induction false} TrimLeftLoses(t: string)
    ensures Newlines(TrimLeft(t)) <= Newlines(t)
    ensures t != "" && t[0] == '\n' ==> Newlines(TrimLeft(t)) < Newlines(t)
  {
    if t != "" && t[0] == '\n' {
      TrimLeftLoses(t[1..]);
    }
  }

  lemma {:induction false} TrimRightLoses(t: string)
    ensures Newlines(TrimRight(t)) <= Newlines(t)
    ensures t != "" && t[|t| - 1] == '\n' ==> Newlines(TrimRight(t)) < Newlines(t)
    decreases |t|
  {
    if t != "" && t[|t| - 1] == '\n' {
      var front := t[..|t| - 1];
      TrimRightLoses(front);
      NewlinesConcat(front, ['\n']);
      assert t == front + ['\n'];
      assert Newlines(['\n']) == 1;
    }
  }

  /** The text ends as its last key does. */
  lemma {:induction false} JoinEnds(keys: seq<string>)
    requires keys != []
    ensures Join(keys) == "" <==> keys == [""]
    ensures Join(keys) != "" ==> (Join(keys)[0] == '\n' <==> if keys[0] == "" then true else keys[0][0] == '\n')
    ensures var last := keys[|keys| - 1];
            Join(keys) != "" ==>
              (Join(keys)[|Join(keys)| - 1] == '\n' <==> if last == "" then true else last[|last| - 1] == '\n')
  {
    if |keys| > 1 {
      JoinEnds(keys[1..]);
      if Join(keys[1..]) != "" {
        assert Join(keys)[|Join(keys)| - 1] == Join(keys[1..])[|Join(keys[1..])| - 1];
      }
    }
  }

  lemma TrimIdentity(t: string)
    requires t != "" && t[0] != '\n' && t[|t| - 1] != '\n'
    ensures Trim(t) == t
  {
  }

  lemma TrimLoses(t: string)
    requires t != "" && (t[0] == '\n' || t[|t| - 1] == '\n')
    ensures Newlines(Trim(t)) < Newlines(t)
  {
    TrimLeftLoses(t);
    TrimRightLoses(TrimLeft(t));
  }

  lemma {:induction false} SplitHasNoNewlines(t: string)
    ensures forall i :: 0 <= i < |Split(t)| ==> NoNewline(Split(t)[i])
    decreases |t|
  {
    var k := FirstNewline(t);
    if k < |t| {
      SplitHasNoNewlines(t[k + 1..]);
    }
  }

  /** The joined text looks like an array only if the text of one of the keys does. */
  lemma {:induction false} ArrayFromKey(keys: seq<string>)
    requires forall i :: 0 <= i < |keys| ==> !LooksLikeArray(keys[i])
    ensures !LooksLikeArray(Join(keys))
  {
    if |keys| > 1 {
      ArrayFromKey(keys[1..]);
      ArrayAfter(keys[0], Join(keys[1..]));
    }
  }

  lemma {:induction false} ArrayAfter(a: string, b: string)
    requires !LooksLikeArray(a) && !LooksLikeArray(b)
    ensures !LooksLikeArray(a + ['\n'] + b)
  {
    var t := a + ['\n'] + b;
    if a == "" {
      assert t[1..] == b;
    } else {
      assert t[1..] == a[1..] + ['\n'] + b;
      if IsSpace(a[0]) {
        ArrayAfter(a[1..], b);
      }
    }
  }

  /** The column that `keys` are joined to is read as an array. */
  predicate ReadAsArray(keys: seq<string>, arrays: Arrays)
  {
    LooksLikeArray(Join(keys)) && arrays(Join(keys)).Some?
  }

  /** Nothing is lost between writing keys and reading them: no newlines inside, no blanks at the ends, no array. */
  predicate Lasting(keys: seq<string>, arrays: Arrays)
  {
    && (forall i :: 0 <= i < |keys| ==> NoNewline(keys[i]))
    && keys != [] && keys[0] != "" && keys[|keys| - 1] != ""
    && !ReadAsArray(keys, arrays)
  }

  /** Keys written to the column are read back unchanged if and only if they are lasting. */
  lemma {:induction false} RoundTripExactlyWhenLasting(keys: seq<string>, arrays: Arrays)
    requires keys != [] && ParsesArrays(arrays)
    ensures GetKeys(Join(keys), arrays) == keys <==> Lasting(keys, arrays)
  {
    var t := Join(keys);
    JoinEnds(keys);
    if ReadAsArray(keys, arrays) {
      assert |Join(arrays(t).value)| < |t|;
    } else if t != "" {
      if forall i :: 0 <= i < |keys| ==> NoNewline(keys[i]) {
        LinesRoundTrip(keys);
      } else {
        SplitHasNoNewlines(Trim(t));
      }
    }
  }

  lemma LinesRoundTrip(keys: seq<string>)
    requires keys != [] && Join(keys) != "" && forall i :: 0 <= i < |keys| ==> NoNewline(keys[i])
    ensures Split(Trim(Join(keys))) == keys <==> keys[0] != "" && keys[|keys| - 1] != ""
  {
    var t := Join(keys);
    JoinEnds(keys);
    SplitJoin(keys);
    if keys[0] != "" && keys[|keys| - 1] != "" {
      assert keys[0][0] in keys[0] && keys[|keys| - 1][|keys[|keys| - 1]| - 1] in keys[|keys| - 1];
      TrimIdentity(t);
    } else {
      TrimLoses(t);
      SplitLength(t);
      SplitLength(Trim(t));
    }
  }

  // ---- what becomes of blank keys ----

  /** Trimming the text drops the blank keys at either end. */
  function WithoutBlankFront(keys: seq<string>): (r: seq<string>)
    ensures |r| <= |keys|
  {
    if keys != [] && keys[0] == "" then WithoutBlankFront(keys[1..]) else keys
  }

  function WithoutBlankBack(keys: seq<string>): (r: seq<string>)
    ensures r <= keys
  {
    if keys != [] && keys[|keys| - 1] == "" then WithoutBlankBack(keys[..|keys| - 1]) else keys
  }

  function WithoutBlankEnds(keys: seq<string>): seq<string>
  {
    WithoutBlankBack(WithoutBlankFront(keys))
  }

  predicate HasInk(keys: seq<string>)
  {
    exists i :: 0 <= i < |keys| && keys[i] != ""
  }

  lemma {:induction false} JoinAppended(keys: seq<string>, key: string)
    requires keys != []
    ensures Join(keys + [key]) == Join(keys) + ['\n'] + key
  {
    if |keys| > 1 {
      assert (keys + [key])[1..] == keys[1..] + [key];
      JoinAppended(keys[1..], key);
      assert keys[0] + ['\n'] + (Join(keys[1..]) + ['\n'] + key) == Join(keys) + ['\n'] + key;
    } else {
      assert (keys + [key])[1..] == [key];
    }
  }

  lemma {:induction false} TrimRightOfJoin(keys: seq<string>)
    requires keys != [] && keys[0] != "" && forall i :: 0 <= i < |keys| ==> NoNewline(keys[i])
    ensures WithoutBlankBack(keys) != [] && TrimRight(Join(keys)) == Join(WithoutBlankBack(keys))
    decreases |keys|
  {
    var front, last := keys[..|keys| - 1], keys[|keys| - 1];
    if last == "" {
      JoinAppended(front, last);
      assert keys == front + [last];
      assert Join(keys)[..|Join(keys)| - 1] == Join(front);
      TrimRightOfJoin(front);
    } else {
      JoinEnds(keys);
      assert last[|last| - 1] in last;
    }
  }

  /** Keys with some ink among them are read back without their blank ends. */
  lemma {:induction false} TrimOfJoin(keys: seq<string>)
    requires HasInk(keys) && forall i :: 0 <= i < |keys| ==> NoNewline(keys[i])
    ensures Join(keys) != "" && WithoutBlankEnds(keys) != [] && Trim(Join(keys)) == Join(WithoutBlankEnds(keys))
    decreases |keys|
  {
    JoinEnds(keys);
    if keys[0] == "" {
      assert |keys| > 1;
      var i :| 0 <= i < |keys| && keys[i] != "";
      assert keys[1..][i - 1] != "";
      assert Join(keys)[1..] == Join(keys[1..]);
      TrimOfJoin(keys[1..]);
    } else {
      assert keys[0][0] in keys[0];
      TrimRightOfJoin(keys);
    }
  }

  /** No newline in any key, and none that could make the column look like an array. */
  predicate PlainKeys(keys: seq<string>)
  {
    forall i :: 0 <= i < |keys| ==> NoNewline(keys[i]) && !LooksLikeArray(keys[i])
  }

  lemma {:induction false} FrontIsPart(keys: seq<string>)
    requires forall i :: 0 <= i < |keys| ==> NoNewline(keys[i])
    ensures forall i :: 0 <= i < |WithoutBlankFront(keys)| ==> NoNewline(WithoutBlankFront(keys)[i])
  {
    if keys != [] && keys[0] == "" {
      FrontIsPart(keys[1..]);
    }
  }

  /** What is read back of plain keys with some ink among them. */
  lemma PlainKeysReadBack(keys: seq<string>, arrays: Arrays)
    requires PlainKeys(keys) && HasInk(keys)
    ensures Join(keys) != "" && GetKeys(Join(keys), arrays) == WithoutBlankEnds(keys)
  {
    ArrayFromKey(keys);
    TrimOfJoin(keys);
    FrontIsPart(keys);
    SplitJoin(WithoutBlankEnds(keys));
  }

  /** A column that is not an array is never read with a blank key at an end, unless it is blank altogether. */
  lemma {:induction false} TrimmedEnds(t: string)
    ensures TrimRight(t) != "" ==> TrimRight(t)[|TrimRight(t)| - 1] != '\n' && TrimRight(t)[0] == t[0]
    decreases |t|
  {
    if t != "" && t[|t| - 1] == '\n' {
      TrimmedEnds(t[..|t| - 1]);
    }
  }

  lemma {:induction false} TrimmedFront(t: string)
    ensures TrimLeft(t) != "" ==> TrimLeft(t)[0] != '\n'
  {
    if t != "" && t[0] == '\n' {
      TrimmedFront(t[1..]);
    }
  }

  lemma {:induction false} SplitEnds(t: string)
    requires t != "" && t[0] != '\n' && t[|t| - 1] != '\n'
    ensures Split(t)[0] != "" && Split(t)[|Split(t)| - 1] != ""
    decreases |t|
  {
    SplitLast(t);
  }

  lemma {:induction false} SplitLast(t: string)
    requires t != "" && t[|t| - 1] != '\n'
    ensures Split(t)[|Split(t)| - 1] != ""
    decreases |t|
  {
    var k := FirstNewline(t);
    if k < |t| {
      SplitLast(t[k + 1..]);
    }
  }

  lemma ReadKeysHaveEnds(column: string, arrays: Arrays)
    requires ParsesArrays(arrays)
    ensures var keys := GetKeys(column, arrays);
            keys == [] || keys == [""] || (keys[0] != "" && keys[|keys| - 1] != "")
  {
    var t := Trim(column);
    TrimmedFront(column);
    TrimmedEnds(TrimLeft(column));
    if t != "" {
      SplitEnds(t);
    }
  }
}
