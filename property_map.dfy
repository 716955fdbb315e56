/** The Dictionary<String, String> that holds the properties of one WMI
    alias. ParseWMIOutput builds it with StringComparer.OrdinalIgnoreCase,
    so keys are compared without regard to (ASCII) case; its entries are
    kept in insertion order, the order in which the dictionary enumerates
    them when nothing is ever removed. */
module PropertyMaps {
  import opened Results
  import opened Text

  /** One KeyValuePair<String, String>. */
  datatype Entry = Entry(key: string, value: string)

  /** The entries of the dictionary, oldest first. */
  type PropertyMap = seq<Entry>

  /** No two keys of the map are equal under OrdinalIgnoreCase: the
      invariant Dictionary keeps. */
  ghost predicate UniqueKeys(m: PropertyMap) {
    forall i, j :: 0 <= i < j < |m| ==> !EqualsIgnoreCase(m[i].key, m[j].key)
  }

  /** OrdinalIgnoreCase equality is an equivalence relation. */
  lemma EqualsIgnoreCaseEquivalence(a: string, b: string, c: string)
    ensures EqualsIgnoreCase(a, a)
    ensures EqualsIgnoreCase(a, b) == EqualsIgnoreCase(b, a)
    ensures EqualsIgnoreCase(a, b) && EqualsIgnoreCase(b, c) ==> EqualsIgnoreCase(a, c)
  {
  }

  /** The slot of the first entry whose key equals `key` ignoring case, or -1. */
  function IndexOfKey(m: PropertyMap, key: string): (i: int)
    ensures -1 <= i < |m|
    ensures i >= 0 ==> EqualsIgnoreCase(m[i].key, key)
    ensures i >= 0 ==> forall j :: 0 <= j < i ==> !EqualsIgnoreCase(m[j].key, key)
    ensures i == -1 <==> forall j :: 0 <= j < |m| ==> !EqualsIgnoreCase(m[j].key, key)
  {
    if m == [] then -1
    else if EqualsIgnoreCase(m[0].key, key) then 0
    else
      var i := IndexOfKey(m[1..], key);
      if i < 0 then -1 else i + 1
  }

  /** Dictionary.ContainsKey. */
  predicate ContainsKey(m: PropertyMap, key: string) {
    IndexOfKey(m, key) >= 0
  }

  /** ContainsKey holds exactly when some stored key equals the given one,
      ignoring case. */
  lemma ContainsKeyMeans(m: PropertyMap, key: string)
    ensures ContainsKey(m, key) <==> exists j :: 0 <= j < |m| && EqualsIgnoreCase(m[j].key, key)
  {
    if ContainsKey(m, key) {
      var j := IndexOfKey(m, key);
      assert EqualsIgnoreCase(m[j].key, key);
    }
  }

  /** Dictionary.TryGetValue: the value stored under `key`, ignoring case. */
  function Lookup(m: PropertyMap, key: string): (r: Option<string>)
    ensures r.None? <==> !ContainsKey(m, key)
    ensures r.Some? ==> exists j :: 0 <= j < |m| && EqualsIgnoreCase(m[j].key, key) && m[j].value == r.value
  {
    var i := IndexOfKey(m, key);
    if i < 0 then None else Some(m[i].value)
  }

  /** The keys, in enumeration order (Dictionary.Keys). */
  function Keys(m: PropertyMap): (ks: seq<string>)
    ensures |ks| == |m|
    ensures forall j :: 0 <= j < |m| ==> ks[j] == m[j].key
  {
    if m == [] then [] else [m[0].key] + Keys(m[1..])
  }

  /** A map that extends another one slot by slot, as far as keys go,
      enumerates its keys first. */
  lemma KeysPrefix(m: PropertyMap, r: PropertyMap)
    requires |m| <= |r|
    requires forall j :: 0 <= j < |m| ==> r[j].key == m[j].key
    ensures Keys(r)[..|m|] == Keys(m)
  {
  }

  /** In a map with unique keys, the entry at slot j is the one a lookup of
      its own key (in any case) finds. */
  lemma {:induction false} LookupUnique(m: PropertyMap, j: int, key: string)
    requires UniqueKeys(m)
    requires 0 <= j < |m| && EqualsIgnoreCase(m[j].key, key)
    ensures IndexOfKey(m, key) == j
    ensures Lookup(m, key) == Some(m[j].value)
  {
    var i := IndexOfKey(m, key);
    assert i >= 0;
    EqualsIgnoreCaseEquivalence(m[i].key, key, m[j].key);
    EqualsIgnoreCaseEquivalence(m[j].key, key, m[i].key);
  }

  /** Dictionary.Add: appends a new entry, or throws ArgumentException when
      the key is already present (ignoring case). */
  function Add(m: PropertyMap, key: string, value: string): (r: Result<PropertyMap>)
    ensures r.Fail? <==> ContainsKey(m, key)
    ensures r.Fail? ==> r.error == DuplicateKey
    ensures r.Ok? ==> r.value == m + [Entry(key, value)]
    ensures r.Ok? ==> Lookup(r.value, key) == Some(value)
    ensures r.Ok? && UniqueKeys(m) ==> UniqueKeys(r.value)
  {
    if ContainsKey(m, key) then Fail(DuplicateKey)
    else
      AppendedLookup(m, key, value);
      Ok(m + [Entry(key, value)])
  }

  /** Appending an entry whose key is absent makes it the entry a lookup of
      that key finds, and keeps the keys unique. */
  lemma AppendedLookup(m: PropertyMap, key: string, value: string)
    requires !ContainsKey(m, key)
    ensures Lookup(m + [Entry(key, value)], key) == Some(value)
    ensures UniqueKeys(m) ==> UniqueKeys(m + [Entry(key, value)])
  {
    var m' := m + [Entry(key, value)];
    assert forall j :: 0 <= j < |m| ==> m'[j] == m[j];
    assert EqualsIgnoreCase(m'[|m|].key, key);
    forall j | 0 <= j < |m|
      ensures !EqualsIgnoreCase(m'[j].key, m'[|m|].key)
    {
      assert !EqualsIgnoreCase(m[j].key, key);
    }
  }

  /** The dictionary indexer's setter: overwrites the value of the entry
      whose key equals `key` ignoring case (keeping the key as first
      stored, and its slot), or appends a new entry. */
  function SetItem(m: PropertyMap, key: string, value: string): (r: PropertyMap)
    ensures Lookup(r, key) == Some(value)
    ensures ContainsKey(m, key) ==> |r| == |m| && Keys(r) == Keys(m)
    ensures !ContainsKey(m, key) ==> r == m + [Entry(key, value)]
    ensures |m| <= |r| && Keys(r)[..|m|] == Keys(m)
    ensures forall k :: !EqualsIgnoreCase(k, key) ==> Lookup(r, k) == Lookup(m, k)
    ensures UniqueKeys(m) ==> UniqueKeys(r)
  {
    var i := IndexOfKey(m, key);
    if i < 0 then
      AppendSetsItem(m, key, value);
      m + [Entry(key, value)]
    else
      UpdateSetsItem(m, key, value, i);
      m[i := Entry(m[i].key, value)]
  }

  /** SetItem's contract for an absent key, which is appended. */
  lemma AppendSetsItem(m: PropertyMap, key: string, value: string)
    requires !ContainsKey(m, key)
    ensures var r := m + [Entry(key, value)];
      Lookup(r, key) == Some(value)
      && |m| <= |r| && Keys(r)[..|m|] == Keys(m)
      && (forall k :: !EqualsIgnoreCase(k, key) ==> Lookup(r, k) == Lookup(m, k))
      && (UniqueKeys(m) ==> UniqueKeys(r))
  {
    AppendedLookup(m, key, value);
    AppendedOthers(m, key, value);
    KeysPrefix(m, m + [Entry(key, value)]);
  }

  /** SetItem's contract for a present key, whose value is overwritten in
      its slot. */
  lemma UpdateSetsItem(m: PropertyMap, key: string, value: string, i: int)
    requires i == IndexOfKey(m, key) && i >= 0
    ensures var r := m[i := Entry(m[i].key, value)];
      Lookup(r, key) == Some(value)
      && |r| == |m| && Keys(r) == Keys(m) && Keys(r)[..|m|] == Keys(m)
      && (forall k :: !EqualsIgnoreCase(k, key) ==> Lookup(r, k) == Lookup(m, k))
      && (UniqueKeys(m) ==> UniqueKeys(r))
  {
    UpdatedLookup(m, i, value);
    SameClass(m[i].key, key);
    assert Keys(m)[..|m|] == Keys(m);
  }

  /** Keys equal ignoring case are equal, ignoring case, to the same keys. */
  lemma SameClass(a: string, b: string)
    requires EqualsIgnoreCase(a, b)
    ensures forall k :: EqualsIgnoreCase(k, a) <==> EqualsIgnoreCase(k, b)
  {
    forall k ensures EqualsIgnoreCase(k, a) <==> EqualsIgnoreCase(k, b) {
      EqualsIgnoreCaseEquivalence(k, a, b);
      EqualsIgnoreCaseEquivalence(k, b, a);
      EqualsIgnoreCaseEquivalence(a, b, k);
    }
  }

  /** Appending an entry changes no lookup of a key not equal to it. */
  lemma AppendedOthers(m: PropertyMap, key: string, value: string)
    ensures forall k :: !EqualsIgnoreCase(k, key) ==> Lookup(m + [Entry(key, value)], k) == Lookup(m, k)
  {
    var m' := m + [Entry(key, value)];
    forall k | !EqualsIgnoreCase(k, key)
      ensures Lookup(m', k) == Lookup(m, k)
    {
      EqualsIgnoreCaseEquivalence(key, k, key);
      assert !EqualsIgnoreCase(m'[|m|].key, k);
      assert forall j :: 0 <= j < |m| ==> m'[j] == m[j];
      IndexOfKeyAgree(m, m', k);
    }
  }

  /** Two maps whose keys agree on a common prefix, with no key matching
      `k` after it in the second, give the same first slot for `k`. */
  lemma IndexOfKeyAgree(m: PropertyMap, m': PropertyMap, k: string)
    requires |m| <= |m'|
    requires forall j :: 0 <= j < |m| ==> m'[j].key == m[j].key
    requires forall j :: |m| <= j < |m'| ==> !EqualsIgnoreCase(m'[j].key, k)
    ensures IndexOfKey(m', k) == IndexOfKey(m, k)
  {
    var i' := IndexOfKey(m', k);
    if 0 <= i' < |m| {
      assert m'[i'].key == m[i'].key;
    }
  }

  /** Overwriting the value at slot i (the first slot of its key) keeps
      every key, makes a lookup of that key find the new value, and changes
      no lookup of another key. */
  lemma UpdatedLookup(m: PropertyMap, i: int, value: string)
    requires 0 <= i < |m|
    requires forall j :: 0 <= j < i ==> !EqualsIgnoreCase(m[j].key, m[i].key)
    ensures var r := m[i := Entry(m[i].key, value)];
      |r| == |m| && Keys(r) == Keys(m)
      && (forall k :: EqualsIgnoreCase(m[i].key, k) ==> Lookup(r, k) == Some(value))
      && (forall k :: !EqualsIgnoreCase(k, m[i].key) ==> Lookup(r, k) == Lookup(m, k))
      && (UniqueKeys(m) ==> UniqueKeys(r))
  {
    var r := m[i := Entry(m[i].key, value)];
    assert forall j :: 0 <= j < |m| ==> r[j].key == m[j].key;
    forall k | EqualsIgnoreCase(m[i].key, k)
      ensures Lookup(r, k) == Some(value)
    {
      IndexOfKeyAgree(r, r, k);
      var x := IndexOfKey(r, k);
      forall j | 0 <= j < i
        ensures !EqualsIgnoreCase(r[j].key, k)
      {
        EqualsIgnoreCaseEquivalence(m[j].key, k, m[i].key);
        EqualsIgnoreCaseEquivalence(m[i].key, k, m[i].key);
      }
    }
    forall k | !EqualsIgnoreCase(k, m[i].key)
      ensures Lookup(r, k) == Lookup(m, k)
    {
      IndexOfKeyAgree(m, r, k);
      var x := IndexOfKey(m, k);
      if x == i {
        EqualsIgnoreCaseEquivalence(k, m[i].key, k);
      }
    }
  }

  /** The number of keys that start with `prefix`, compared ordinally and
      case-sensitively (the Keys.Where(x => x.StartsWith(...)).Count() of
      ParseWMIOutput). */
  function CountStartingWith(m: PropertyMap, prefix: string): (n: nat)
    ensures n <= |m|
    ensures n == 0 <==> forall j :: 0 <= j < |m| ==> !StartsWith(m[j].key, prefix)
  {
    if m == [] then 0
    else (if StartsWith(m[0].key, prefix) then 1 else 0) + CountStartingWith(m[1..], prefix)
  }
}
