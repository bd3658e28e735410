/** The tracked-address list update of `/addaddress`: the stored value is read
    as a comma-separated list, the address is looked up by exact comparison,
    and a new address is appended to the non-empty old entries. */
module Registry {
  import opened CommaList

  /** The outcome of adding an address to a stored list. */
  datatype AddOutcome = AlreadyTracked | Added(newStored: string)

  /** `os.getenv(key, "")`: the stored value, or the empty text when unset. */
  function Lookup(vars: map<string, string>, key: string): (v: string)
    ensures key in vars ==> v == vars[key]
    ensures key !in vars ==> v == ""
  {
    if key in vars then vars[key] else ""
  }

  /** The addresses a stored value tracks: its non-empty entries, in order.
      They are exactly the non-empty split entries, and none holds a comma. */
  function Entries(stored: string): (r: seq<string>)
    ensures forall w :: w in r <==> w in Split(stored) && w != ""
    ensures forall i :: 0 <= i < |r| ==> ValidEntry(r[i])
  {
    var parts := NonEmpty(Split(stored));
    assert forall i :: 0 <= i < |parts| ==> parts[i] in Split(stored);
    parts
  }

  /** No address occurs twice in a list. */
  predicate NoDup(s: seq<string>) {
    forall i, j :: 0 <= i < j < |s| ==> s[i] != s[j]
  }

  /** The list update: an address equal to one of the split entries is
      already tracked; otherwise the new stored value is the join of the old
      non-empty entries with the address as the last one. */
  function AddToList(stored: string, address: string): (r: AddOutcome)
    ensures r.AlreadyTracked? <==> address in Split(stored)
    ensures r.Added? && address != "" ==> r.newStored == Join(Entries(stored) + [address])
  {
    var entries := Split(stored);
    if address in entries then AlreadyTracked
    else
      NonEmptyAppend(entries, [address]);
      assert address != "" ==> NonEmpty([address]) == [address] by {
        assert [address][1..] == [];
      }
      Added(Join(NonEmpty(entries + [address])))
  }

  /** An address that is usable as a list entry: non-empty and comma-free. */
  predicate ValidEntry(address: string) {
    address != "" && SepFree(address)
  }

  /** Appending round-trips through the text format: splitting the new value
      gives the old non-empty entries in order followed by the address, so
      the tracked list grows by exactly that one address. */
  lemma {:induction false} AddAppends(stored: string, address: string)
    requires ValidEntry(address)
    requires AddToList(stored, address).Added?
    ensures Split(AddToList(stored, address).newStored) == Entries(stored) + [address]
    ensures Entries(AddToList(stored, address).newStored) == Entries(stored) + [address]
    ensures |Entries(AddToList(stored, address).newStored)| == |Entries(stored)| + 1
  {
    var parts := Entries(stored);
    var q := parts + [address];
    forall i | 0 <= i < |q| ensures SepFree(q[i]) {
      if i < |parts| {
        assert parts[i] in Split(stored);
      }
    }
    SplitJoin(q);
    NonEmptyOfNoEmpty(q);
  }

  /** The insert deduplicates: a list without repeats stays without repeats. */
  lemma {:induction false} AddKeepsNoDup(stored: string, address: string)
    requires ValidEntry(address)
    requires NoDup(Entries(stored))
    requires AddToList(stored, address).Added?
    ensures NoDup(Entries(AddToList(stored, address).newStored))
  {
    AddAppends(stored, address);
    assert address !in Entries(stored);
  }

  /** Adding the same valid address twice: the second add finds it. */
  lemma {:induction false} AddIdempotent(stored: string, address: string)
    requires ValidEntry(address)
    requires AddToList(stored, address).Added?
    ensures AddToList(AddToList(stored, address).newStored, address) == AlreadyTracked
  {
    AddAppends(stored, address);
    var s := Split(AddToList(stored, address).newStored);
    assert s[|s| - 1] == address;
  }

  /** An unset variable reads as `""`, whose one empty entry the filter drops:
      the first add stores exactly the address, with no leading comma. */
  lemma AddToEmpty(address: string)
    requires address != ""
    ensures AddToList("", address) == Added(address)
  {
    assert Split("") == [""];
  }

  /** On a value with no empty entries (such as one this update wrote), an add
      writes the old text, a comma and the address. */
  lemma {:induction false} AddToWellFormed(stored: string, address: string)
    requires stored != "" && "" !in Split(stored)
    requires address != ""
    requires AddToList(stored, address).Added?
    ensures AddToList(stored, address).newStored == stored + [Sep] + address
  {
    NonEmptyOfNoEmpty(Split(stored));
    JoinSnoc(Split(stored), address);
    JoinSplit(stored);
  }

  /** What this update writes has no empty entry, so later adds keep to the
      plain `old + "," + address` form. */
  lemma {:induction false} AddKeepsWellFormed(stored: string, address: string)
    requires ValidEntry(address)
    requires AddToList(stored, address).Added?
    ensures AddToList(stored, address).newStored != ""
    ensures "" !in Split(AddToList(stored, address).newStored)
  {
    AddAppends(stored, address);
    assert Split("") == [""];
  }

  /** Two valid entries joined by a comma split back into those two. */
  lemma TwoEntries(a: string, b: string)
    requires ValidEntry(a) && ValidEntry(b)
    ensures Split(a + [Sep] + b) == [a, b]
  {
    SplitHead(a, b);
    SplitSepFree(b);
  }

  /** Membership is exact: any two different valid addresses, such as two
      spellings of one hex address that differ only in letter case, are two
      entries; both are stored and each is found afterwards. */
  lemma {:induction false} DistinctBothStored(a: string, b: string)
    requires ValidEntry(a) && ValidEntry(b) && a != b
    ensures AddToList(a, b) == Added(a + [Sep] + b)
    ensures AddToList(a + [Sep] + b, a) == AlreadyTracked
    ensures AddToList(a + [Sep] + b, b) == AlreadyTracked
  {
    SplitSepFree(a);
    AddToWellFormed(a, b);
    TwoEntries(a, b);
  }

  /** The instance the bot meets with EVM addresses: `0xABC` and `0xabc`. */
  lemma CaseSensitive()
    ensures AddToList("0xABC", "0xabc") == Added("0xABC,0xabc")
    ensures AddToList("0xABC,0xabc", "0xABC") == AlreadyTracked
    ensures AddToList("0xABC,0xabc", "0xabc") == AlreadyTracked
  {
    var a, b := "0xABC", "0xabc";
    assert a[3] != b[3];
    DistinctBothStored(a, b);
    assert a + [Sep] + b == "0xABC,0xabc";
  }

  /** An address `a,b` holding a comma is compared whole but stored as the two
      pieces, so adding it again is not recognised: it is appended a second
      time and the tracked list then holds repeats. */
  lemma {:induction false} CommaAddressRepeats(a: string, b: string)
    requires ValidEntry(a) && ValidEntry(b)
    ensures var w := a + [Sep] + b;
      && AddToList(w, w) == Added(w + [Sep] + w)
      && !NoDup(Entries(w + [Sep] + w))
  {
    var w := a + [Sep] + b;
    TwoEntries(a, b);
    assert |w| > |a| && |w| > |b|;
    assert w !in Split(w);
    AddToWellFormed(w, w);
    var ww := w + [Sep] + w;
    assert ww == a + [Sep] + (b + [Sep] + w);
    SplitHead(a, b + [Sep] + w);
    SplitHead(b, w);
    assert Split(ww) == [a, b, a, b];
    NonEmptyOfNoEmpty([a, b, a, b]);
    assert Entries(ww)[0] == Entries(ww)[2];
  }
}
