/** The comma-separated text format in which tracked addresses are stored:
    Python's `s.split(",")`, `",".join(parts)` and `filter(None, parts)`,
    written out over `seq<char>`. */
module CommaList {

  /** The one separator the stored format uses. */
  const Sep: char := ','

  /** An entry of a split list: a piece of text with no separator in it. */
  predicate SepFree(w: string) {
    Sep !in w
  }

  /** Python's `s.split(",")` with an explicit separator: every separator
      starts a new entry, so `""` splits into `[""]` and `","` into `["", ""]`.
      The result is never empty, no entry holds a separator, and there is
      one entry more than there are separators. */
  function Split(s: string): (r: seq<string>)
    ensures |r| >= 1
    ensures forall i :: 0 <= i < |r| ==> SepFree(r[i])
    ensures |r| == CountSep(s) + 1
    decreases |s|
  {
    if |s| == 0 then [""]
    else
      var rest := Split(s[1..]);
      if s[0] == Sep then [""] + rest
      else [[s[0]] + rest[0]] + rest[1..]
  }

  /** The number of separators in `s`. */
  function CountSep(s: string): nat
    decreases |s|
  {
    if |s| == 0 then 0
    else (if s[0] == Sep then 1 else 0) + CountSep(s[1..])
  }

  /** Separator counts add up over concatenation. */
  lemma {:induction false} CountSepAppend(a: string, b: string)
    ensures CountSep(a + b) == CountSep(a) + CountSep(b)
    decreases |a|
  {
    if |a| == 0 {
      assert a + b == b;
    } else {
      assert (a + b)[1..] == a[1..] + b;
      CountSepAppend(a[1..], b);
    }
  }

  /** Separator-free text has no separator to count. */
  lemma {:induction false} CountSepFree(w: string)
    ensures SepFree(w) ==> CountSep(w) == 0
    decreases |w|
  {
    if |w| > 0 {
      CountSepFree(w[1..]);
    }
  }

  /** Python's `",".join(parts)`: the entries with one separator between
      each neighbouring pair and none before the first or after the last.
      The result is empty only for no entries or one empty entry, and joining
      separator-free entries inserts exactly one separator fewer than there
      are entries. */
  function Join(parts: seq<string>): (r: string)
    ensures r == "" <==> |parts| == 0 || (|parts| == 1 && parts[0] == "")
    ensures |parts| >= 1 && (forall i :: 0 <= i < |parts| ==> SepFree(parts[i])) ==>
      CountSep(r) == |parts| - 1
    decreases |parts|
  {
    if |parts| == 0 then ""
    else if |parts| == 1 then
      CountSepFree(parts[0]);
      parts[0]
    else
      var tail := Join(parts[1..]);
      CountSepAppend(parts[0] + [Sep], tail);
      CountSepAppend(parts[0], [Sep]);
      CountSepFree(parts[0]);
      assert CountSep([Sep]) == 1 by {
        assert [Sep][1..] == [];
      }
      parts[0] + [Sep] + tail
  }

  /** Python's `filter(None, parts)` on strings: the non-empty entries,
      in their original order. */
  function NonEmpty(parts: seq<string>): (r: seq<string>)
    ensures |r| <= |parts|
    ensures forall i :: 0 <= i < |r| ==> r[i] != ""
    ensures forall w :: w in r <==> w in parts && w != ""
    decreases |parts|
  {
    if |parts| == 0 then []
    else if parts[0] == "" then NonEmpty(parts[1..])
    else [parts[0]] + NonEmpty(parts[1..])
  }

  /** Filtering distributes over concatenation, so it keeps the order of
      the entries it keeps. */
  lemma {:induction false} NonEmptyAppend(a: seq<string>, b: seq<string>)
    ensures NonEmpty(a + b) == NonEmpty(a) + NonEmpty(b)
    decreases |a|
  {
    if |a| == 0 {
      assert a + b == b;
    } else {
      assert (a + b)[1..] == a[1..] + b;
      NonEmptyAppend(a[1..], b);
    }
  }

  /** A list with no empty entry is left as it is by the filter. */
  lemma {:induction false} NonEmptyOfNoEmpty(parts: seq<string>)
    requires "" !in parts
    ensures NonEmpty(parts) == parts
    decreases |parts|
  {
    if |parts| > 0 {
      assert parts == [parts[0]] + parts[1..];
      NonEmptyOfNoEmpty(parts[1..]);
    }
  }

  /** Text with no separator splits into itself alone. */
  lemma {:induction false} SplitSepFree(w: string)
    requires SepFree(w)
    ensures Split(w) == [w]
    decreases |w|
  {
    if |w| > 0 {
      assert w == [w[0]] + w[1..];
      SplitSepFree(w[1..]);
    }
  }

  /** A separator-free head followed by a separator splits off as the
      first entry. */
  lemma {:induction false} SplitHead(w: string, t: string)
    requires SepFree(w)
    ensures Split(w + [Sep] + t) == [w] + Split(t)
    decreases |w|
  {
    var s := w + [Sep] + t;
    if |w| == 0 {
      assert s == [Sep] + t;
      assert s[1..] == t;
    } else {
      assert s[1..] == w[1..] + [Sep] + t;
      SplitHead(w[1..], t);
      assert [w[0]] + w[1..] == w;
    }
  }

  /** Joining separator-free entries and splitting the result gives the
      entries back. The list must be non-empty: `Join([])` is `""`, which
      splits into `[""]`. */
  lemma {:induction false} SplitJoin(parts: seq<string>)
    requires |parts| >= 1
    requires forall i :: 0 <= i < |parts| ==> SepFree(parts[i])
    ensures Split(Join(parts)) == parts
    decreases |parts|
  {
    if |parts| == 1 {
      SplitSepFree(parts[0]);
    } else {
      SplitHead(parts[0], Join(parts[1..]));
      SplitJoin(parts[1..]);
      assert [parts[0]] + parts[1..] == parts;
    }
  }

  /** Prefixing a character to the first entry prefixes it to the joined text. */
  lemma {:induction false} JoinConsHead(c: char, parts: seq<string>)
    requires |parts| >= 1
    ensures Join([[c] + parts[0]] + parts[1..]) == [c] + Join(parts)
  {
    var q := [[c] + parts[0]] + parts[1..];
    assert q[1..] == parts[1..];
  }

  /** Splitting any text and joining the entries gives the text back. */
  lemma {:induction false} JoinSplit(s: string)
    ensures Join(Split(s)) == s
    decreases |s|
  {
    if |s| > 0 {
      var rest := Split(s[1..]);
      JoinSplit(s[1..]);
      if s[0] == Sep {
        assert ([""] + rest)[1..] == rest;
        assert s == [Sep] + s[1..];
      } else {
        JoinConsHead(s[0], rest);
        assert [rest[0]] + rest[1..] == rest;
        assert s == [s[0]] + s[1..];
      }
    }
  }

  /** Joining one more entry at the end adds a separator and that entry. */
  lemma {:induction false} JoinSnoc(parts: seq<string>, w: string)
    requires |parts| >= 1
    ensures Join(parts + [w]) == Join(parts) + [Sep] + w
    decreases |parts|
  {
    if |parts| > 1 {
      assert (parts + [w])[1..] == parts[1..] + [w];
      JoinSnoc(parts[1..], w);
    }
  }
}
