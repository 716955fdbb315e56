/** WMIData.cs: the store of everything requested so far, one
    case-insensitive dictionary of properties per WMI alias. GetDefault
    loads the csproduct and os defaults once; GetData fetches an alias
    (after the defaults), asking wmic only for the filter names not yet
    stored, and merges the answer into what is stored. */
module WmiData {
  import opened Results
  import opened Text
  import opened PropertyMaps
  import opened WmiAlias
  import opened WmiProcessor
  import opened WmiOutput
  import opened WmiFilter

  /** The state GetDefault and GetData act on. */
  datatype Snapshot = Snapshot(properties: map<Alias, PropertyMap>, populated: bool)

  /** Every stored dictionary keeps its keys unique, ignoring case. */
  ghost predicate StoreInvariant(s: Snapshot) {
    forall a :: a in s.properties ==> UniqueKeys(s.properties[a])
  }

  /** Under the store invariant, every stored property is found by its
      own name, in any case, with its stored value. */
  lemma StoredPropertyFound(s: Snapshot, alias: Alias, j: int, name: string)
    requires StoreInvariant(s) && alias in s.properties
    requires 0 <= j < |s.properties[alias]| && EqualsIgnoreCase(s.properties[alias][j].key, name)
    ensures Lookup(s.properties[alias], name) == Some(s.properties[alias][j].value)
  {
    LookupUnique(s.properties[alias], j, name);
  }

  /** The requests GetDefault makes: csproduct name and vendor, os caption
      and architecture. */
  const DefaultRequests: seq<(Alias, string)> :=
    [(CSPRODUCT, "name,vendor"), (OPERATING_SYSTEM, "caption,osarchitecture")]

  /** ParseWMIOutput(new WMIProcessor(request, filter, remote).ExecuteRequest()):
      the processor is built with the local machine's name as its node. */
  function Fetch(request: Alias, filter: string, remote: bool, machineName: string,
                 wmic: string -> Run): (r: Result<PropertyMap>)
    ensures r.Ok? ==> UniqueKeys(r.value)
    ensures request == NONE ==> r == Fail(MissingRequest)
    ensures request != NONE && wmic(CommandLine(request, filter, remote, machineName)).Crashed? ==>
      r == Fail(ProcessFailure)
  {
    match Execute(Some(request), filter, remote, machineName, wmic)
    case Fail(e) => Fail(e)
    case Ok(output) => Parse(output)
  }

  // ---------------------------------------------------------------------
  // GetDefault
  // ---------------------------------------------------------------------

  /** The aliases a list of requests names. */
  function RequestAliases(requests: seq<(Alias, string)>): (aliases: set<Alias>)
    ensures forall k :: 0 <= k < |requests| ==> requests[k].0 in aliases
    ensures forall a :: a in aliases ==> exists k :: 0 <= k < |requests| && requests[k].0 == a
    decreases |requests|
  {
    if requests == [] then {}
    else
      var rest := RequestAliases(requests[1..]);
      assert forall k :: 1 <= k < |requests| ==> requests[k] == requests[1..][k - 1];
      {requests[0].0} + rest
  }

  /** The default requests from the given one on, each result added with
      Dictionary.Add, until the first exception. */
  function LoadDefaults(properties: map<Alias, PropertyMap>, requests: seq<(Alias, string)>,
                        remote: bool, machineName: string, wmic: string -> Run)
    : (r: (map<Alias, PropertyMap>, Outcome))
    ensures forall a :: a in properties ==> a in r.0 && r.0[a] == properties[a]
    ensures r.0.Keys <= properties.Keys + RequestAliases(requests)
    ensures r.1.Pass? ==> RequestAliases(requests) <= r.0.Keys
    ensures (forall a :: a in properties ==> UniqueKeys(properties[a])) ==>
      forall a :: a in r.0 ==> UniqueKeys(r.0[a])
    decreases |requests|
  {
    if requests == [] then (properties, Pass)
    else
      var (alias, filter) := requests[0];
      match Fetch(alias, filter, remote, machineName, wmic)
      case Fail(e) => (properties, Failed(e))
      case Ok(parsed) =>
        if alias in properties then (properties, Failed(DuplicateKey))
        else LoadDefaults(properties[alias := parsed], requests[1..], remote, machineName, wmic)
  }

  /** LoadDefaults from the i-th request on, unfolded once. */
  lemma LoadDefaultsStep(properties: map<Alias, PropertyMap>, requests: seq<(Alias, string)>, i: int,
                         remote: bool, machineName: string, wmic: string -> Run)
    requires 0 <= i < |requests|
    ensures var fetched := Fetch(requests[i].0, requests[i].1, remote, machineName, wmic);
      LoadDefaults(properties, requests[i..], remote, machineName, wmic)
      == if fetched.Fail? then (properties, Failed(fetched.error))
         else if requests[i].0 in properties then (properties, Failed(DuplicateKey))
         else LoadDefaults(properties[requests[i].0 := fetched.value], requests[i + 1..], remote, machineName, wmic)
  {
    assert requests[i..][0] == requests[i];
    assert requests[i..][1..] == requests[i + 1..];
  }

  /** GetDefault: nothing once the defaults were requested; otherwise the
      flag is set first (so a failed load is not retried) and the default
      requests are loaded. */
  function Bootstrap(s: Snapshot, remote: bool, machineName: string, wmic: string -> Run)
    : (r: (Snapshot, Outcome))
    ensures r.0.populated
    ensures s.populated ==> r == (s, Pass)
    ensures forall a :: a in s.properties ==> a in r.0.properties && r.0.properties[a] == s.properties[a]
    ensures r.0.properties.Keys <= s.properties.Keys + {CSPRODUCT, OPERATING_SYSTEM}
    ensures !s.populated && r.1.Pass? ==> CSPRODUCT in r.0.properties && OPERATING_SYSTEM in r.0.properties
    ensures StoreInvariant(s) ==> StoreInvariant(r.0)
  {
    if s.populated then (s, Pass)
    else
      DefaultAliases();
      var loaded := LoadDefaults(s.properties, DefaultRequests, remote, machineName, wmic);
      (Snapshot(loaded.0, true), loaded.1)
  }

  lemma DefaultAliases()
    ensures RequestAliases(DefaultRequests) == {CSPRODUCT, OPERATING_SYSTEM}
  {
    var requests := DefaultRequests;
    assert requests[1..] == [(OPERATING_SYSTEM, "caption,osarchitecture")];
    assert requests[1..][1..] == [];
  }

  /** GetDefault runs its requests at most once. */
  lemma BootstrapIdempotent(s: Snapshot, remote: bool, machineName: string, wmic: string -> Run)
    ensures var once := Bootstrap(s, remote, machineName, wmic).0;
      Bootstrap(once, remote, machineName, wmic) == (once, Pass)
  {
  }

  /** A first GetDefault on an empty store whose two requests succeed
      stores exactly their two dictionaries. */
  lemma BootstrapLoadsDefaults(remote: bool, machineName: string, wmic: string -> Run,
                               product: PropertyMap, system: PropertyMap)
    requires Fetch(CSPRODUCT, "name,vendor", remote, machineName, wmic) == Ok(product)
    requires Fetch(OPERATING_SYSTEM, "caption,osarchitecture", remote, machineName, wmic) == Ok(system)
    ensures Bootstrap(Snapshot(map[], false), remote, machineName, wmic)
      == (Snapshot(map[CSPRODUCT := product, OPERATING_SYSTEM := system], true), Pass)
  {
    LoadTwo(map[], DefaultRequests, remote, machineName, wmic, product, system);
  }

  /** Two requests whose fetches succeed, for aliases not yet stored,
      store both results. */
  lemma LoadTwo(properties: map<Alias, PropertyMap>, requests: seq<(Alias, string)>,
                remote: bool, machineName: string, wmic: string -> Run,
                first: PropertyMap, second: PropertyMap)
    requires |requests| == 2 && requests[0].0 !in properties && requests[1].0 !in properties
    requires requests[0].0 != requests[1].0
    requires Fetch(requests[0].0, requests[0].1, remote, machineName, wmic) == Ok(first)
    requires Fetch(requests[1].0, requests[1].1, remote, machineName, wmic) == Ok(second)
    ensures LoadDefaults(properties, requests, remote, machineName, wmic)
      == (properties[requests[0].0 := first][requests[1].0 := second], Pass)
  {
    var m1 := properties[requests[0].0 := first];
    LoadDefaultsStep(properties, requests, 0, remote, machineName, wmic);
    LoadDefaultsStep(m1, requests, 1, remote, machineName, wmic);
    assert requests[0..] == requests;
    assert requests[2..] == [];
  }

  // ---------------------------------------------------------------------
  // GetData
  // ---------------------------------------------------------------------

  /** One fetched entry into a stored dictionary: the indexer's setter
      when the key is present (ignoring case), Dictionary.Add otherwise. */
  function MergeEntry(stored: PropertyMap, e: Entry): (r: PropertyMap)
    ensures Lookup(r, e.key) == Some(e.value)
    ensures forall k :: !EqualsIgnoreCase(k, e.key) ==> Lookup(r, k) == Lookup(stored, k)
    ensures |stored| <= |r| && Keys(r)[..|stored|] == Keys(stored)
    ensures UniqueKeys(stored) ==> UniqueKeys(r)
  {
    if ContainsKey(stored, e.key) then SetItem(stored, e.key, e.value)
    else
      var added := Add(stored, e.key, e.value);
      assert added.value == SetItem(stored, e.key, e.value);
      added.value
  }

  /** The entries of a fetched dictionary merged one after the other. */
  function Merge(stored: PropertyMap, fetched: PropertyMap): (r: PropertyMap)
    ensures |stored| <= |r| && Keys(r)[..|stored|] == Keys(stored)
    ensures UniqueKeys(stored) ==> UniqueKeys(r)
    ensures forall k :: !ContainsKey(fetched, k) ==> Lookup(r, k) == Lookup(stored, k)
    decreases |fetched|
  {
    if fetched == [] then stored
    else
      var init := fetched[..|fetched| - 1];
      var last := fetched[|fetched| - 1];
      var before := Merge(stored, init);
      var r := MergeEntry(before, last);
      forall k | !ContainsKey(fetched, k)
        ensures Lookup(r, k) == Lookup(stored, k)
      {
        AbsentKey(fetched, k);
      }
      r
  }

  /** A key absent from a non-empty dictionary is absent from all but its
      last entry, and differs from the last key. */
  lemma AbsentKey(m: PropertyMap, k: string)
    requires m != [] && !ContainsKey(m, k)
    ensures !ContainsKey(m[..|m| - 1], k)
    ensures !EqualsIgnoreCase(k, m[|m| - 1].key)
  {
    EqualsIgnoreCaseEquivalence(k, m[|m| - 1].key, k);
    var init := m[..|m| - 1];
    assert forall j :: 0 <= j < |init| ==> init[j] == m[j];
  }

  /** Merging one more fetched entry. */
  lemma MergeSnoc(stored: PropertyMap, fetched: PropertyMap, i: int)
    requires 0 <= i < |fetched|
    ensures Merge(stored, fetched[..i + 1]) == MergeEntry(Merge(stored, fetched[..i]), fetched[i])
  {
    assert fetched[..i + 1][..i] == fetched[..i];
  }

  /** The stored dictionaries after one more fetched entry is merged. */
  lemma MergeIntoStep(stored: map<Alias, PropertyMap>, alias: Alias, fetched: PropertyMap, i: int,
                      properties: map<Alias, PropertyMap>)
    requires alias in stored && 0 <= i < |fetched|
    requires properties == stored[alias := Merge(stored[alias], fetched[..i])]
    ensures properties[alias := MergeEntry(properties[alias], fetched[i])]
      == stored[alias := Merge(stored[alias], fetched[..i + 1])]
  {
    var before := Merge(stored[alias], fetched[..i]);
    var after := MergeEntry(before, fetched[i]);
    MergeSnoc(stored[alias], fetched, i);
    UpdateTwice(stored, alias, before, after);
  }

  /** A second update of the same key replaces the first. */
  lemma UpdateTwice(m: map<Alias, PropertyMap>, k: Alias, first: PropertyMap, second: PropertyMap)
    ensures m[k := first][k := second] == m[k := second]
  {
  }

  /** After a merge every fetched key has its fetched value. */
  lemma {:induction false} MergeUpdates(stored: PropertyMap, fetched: PropertyMap)
    requires UniqueKeys(fetched)
    ensures forall j :: 0 <= j < |fetched| ==> Lookup(Merge(stored, fetched), fetched[j].key) == Some(fetched[j].value)
    decreases |fetched|
  {
    if fetched != [] {
      var n := |fetched| - 1;
      var init := fetched[..n];
      assert UniqueKeys(init) by {
        assert forall j :: 0 <= j < n ==> init[j] == fetched[j];
      }
      MergeUpdates(stored, init);
      MergeUpdatesStep(stored, init, fetched);
    }
  }

  /** The inductive step of MergeUpdates: the last fetched entry is merged
      after the others. */
  lemma MergeUpdatesStep(stored: PropertyMap, init: PropertyMap, fetched: PropertyMap)
    requires UniqueKeys(fetched) && fetched != [] && init == fetched[..|fetched| - 1]
    requires forall j :: 0 <= j < |init| ==> Lookup(Merge(stored, init), init[j].key) == Some(init[j].value)
    ensures forall j :: 0 <= j < |fetched| ==> Lookup(Merge(stored, fetched), fetched[j].key) == Some(fetched[j].value)
  {
    var n := |fetched| - 1;
    var before := Merge(stored, init);
    var merged := MergeEntry(before, fetched[n]);
    assert Merge(stored, fetched) == merged;
    forall j | 0 <= j < |fetched|
      ensures Lookup(merged, fetched[j].key) == Some(fetched[j].value)
    {
      if j < n {
        MergeKeepsEarlier(before, init, fetched, j, n);
      }
    }
  }

  /** A fetched key merged before the last entry keeps its value when the
      last entry, with a different key, is merged. */
  lemma MergeKeepsEarlier(before: PropertyMap, init: PropertyMap, fetched: PropertyMap, j: int, n: int)
    requires UniqueKeys(fetched) && n == |fetched| - 1 && 0 <= j < n && init == fetched[..n]
    requires Lookup(before, init[j].key) == Some(init[j].value)
    ensures Lookup(MergeEntry(before, fetched[n]), fetched[j].key) == Some(fetched[j].value)
  {
    assert init[j] == fetched[j];
    assert !EqualsIgnoreCase(fetched[j].key, fetched[n].key);
  }

  /** A fetched dictionary stored for an alias: merged into the one
      already there, or added. */
  function StoreFetched(properties: map<Alias, PropertyMap>, alias: Alias, fetched: PropertyMap)
    : (r: map<Alias, PropertyMap>)
    ensures r.Keys == properties.Keys + {alias}
    ensures forall a :: a in properties && a != alias ==> r[a] == properties[a]
    ensures alias in properties ==> r[alias] == Merge(properties[alias], fetched)
    ensures alias !in properties ==> r[alias] == fetched
    ensures (forall a :: a in properties ==> UniqueKeys(properties[a])) && UniqueKeys(fetched) ==>
      forall a :: a in r ==> UniqueKeys(r[a])
  {
    if alias in properties then properties[alias := Merge(properties[alias], fetched)]
    else properties[alias := fetched]
  }

  /** The part of GetData after the defaults: the deduplicated filter is
      fetched and the answer stored. */
  function FetchInto(s: Snapshot, alias: Alias, filter: string, remote: bool,
                     machineName: string, wmic: string -> Run): (r: (Snapshot, Outcome))
    ensures r.0.populated == s.populated
    ensures r.1.Pass? ==> alias in r.0.properties
    ensures r.1.Failed? ==> r.0 == s
    ensures alias == NONE ==> r == (s, Failed(MissingRequest))
    ensures forall a :: a != alias ==>
      (a in r.0.properties <==> a in s.properties)
      && (a in s.properties ==> r.0.properties[a] == s.properties[a])
    ensures StoreInvariant(s) ==> StoreInvariant(r.0)
  {
    match Fetch(alias, DedupFilter(s.properties, alias, filter), remote, machineName, wmic)
    case Fail(e) => (s, Failed(e))
    case Ok(fetched) => (s.(properties := StoreFetched(s.properties, alias, fetched)), Pass)
  }

  /** FetchInto by the outcome of its fetch. */
  lemma FetchIntoCases(s: Snapshot, alias: Alias, filter: string, remote: bool,
                       machineName: string, wmic: string -> Run, fetched: Result<PropertyMap>)
    requires fetched == Fetch(alias, DedupFilter(s.properties, alias, filter), remote, machineName, wmic)
    ensures FetchInto(s, alias, filter, remote, machineName, wmic)
      == if fetched.Fail? then (s, Failed(fetched.error))
         else (s.(properties := StoreFetched(s.properties, alias, fetched.value)), Pass)
  {
  }

  /** GetData as a value: nothing for a null request; otherwise the
      defaults first (if not yet requested), then the deduplicated
      filter is fetched and merged into the alias's dictionary, or stored
      as a new one. */
  function RequestData(s: Snapshot, request: Option<Alias>, filter: string, remote: bool,
                       machineName: string, wmic: string -> Run): (r: (Snapshot, Outcome))
    ensures request.None? ==> r == (s, Pass)
    ensures request.Some? ==> r.0.populated
    ensures StoreInvariant(s) ==> StoreInvariant(r.0)
    ensures request.Some? && s.populated ==>
      forall a :: a != request.value ==>
        (a in r.0.properties <==> a in s.properties)
        && (a in s.properties ==> r.0.properties[a] == s.properties[a])
    ensures request.Some? && r.1.Pass? ==> request.value in r.0.properties
    ensures request == Some(NONE) ==> r.1.Failed?
    ensures request == Some(NONE) && s.populated ==> r == (s, Failed(MissingRequest))
  {
    if request.None? then (s, Pass)
    else
      var boot := Bootstrap(s, remote, machineName, wmic);
      if boot.1.Failed? then boot
      else FetchInto(boot.0, request.value, filter, remote, machineName, wmic)
  }

  /** GetData of an alias: the defaults, then, unless they failed, the
      fetch. */
  lemma RequestDataSome(s: Snapshot, alias: Alias, filter: string, remote: bool,
                        machineName: string, wmic: string -> Run)
    ensures var boot := Bootstrap(s, remote, machineName, wmic);
      RequestData(s, Some(alias), filter, remote, machineName, wmic)
      == if boot.1.Failed? then boot else FetchInto(boot.0, alias, filter, remote, machineName, wmic)
    ensures s.populated ==> Bootstrap(s, remote, machineName, wmic) == (s, Pass)
  {
  }

  /** A successful GetData on a populated store: the alias's dictionary is
      the merge of the stored one with the fetched one (or the fetched one
      when there was none), so every fetched property can be looked up with
      its fetched value and every stored key keeps its slot. */
  lemma RequestDataMerges(s: Snapshot, alias: Alias, filter: string, remote: bool,
                          machineName: string, wmic: string -> Run, fetched: PropertyMap)
    requires s.populated
    requires Fetch(alias, DedupFilter(s.properties, alias, filter), remote, machineName, wmic) == Ok(fetched)
    ensures var r := RequestData(s, Some(alias), filter, remote, machineName, wmic);
      r.1 == Pass
      && r.0.properties == StoreFetched(s.properties, alias, fetched)
      && (forall j :: 0 <= j < |fetched| ==>
            Lookup(r.0.properties[alias], fetched[j].key) == Some(fetched[j].value))
      && (alias in s.properties ==>
            Keys(r.0.properties[alias])[..|s.properties[alias]|] == Keys(s.properties[alias]))
  {
    var stored := StoreFetched(s.properties, alias, fetched);
    assert Bootstrap(s, remote, machineName, wmic) == (s, Pass);
    assert RequestData(s, Some(alias), filter, remote, machineName, wmic) == (s.(properties := stored), Pass);
    StoreFetchedUpdates(s.properties, alias, fetched);
  }

  /** Every entry of a fetched dictionary with unique keys can be looked up
      in what is stored for its alias afterwards. */
  lemma StoreFetchedUpdates(properties: map<Alias, PropertyMap>, alias: Alias, fetched: PropertyMap)
    requires UniqueKeys(fetched)
    ensures forall j :: 0 <= j < |fetched| ==>
      Lookup(StoreFetched(properties, alias, fetched)[alias], fetched[j].key) == Some(fetched[j].value)
  {
    if alias in properties {
      MergeUpdates(properties[alias], fetched);
    } else {
      forall j | 0 <= j < |fetched|
        ensures Lookup(fetched, fetched[j].key) == Some(fetched[j].value)
      {
        LookupUnique(fetched, j, fetched[j].key);
      }
    }
  }

  /** A failed request leaves the alias's properties as they were (after
      the defaults). */
  lemma RequestDataFailureKeepsStore(s: Snapshot, alias: Alias, filter: string, remote: bool,
                                     machineName: string, wmic: string -> Run)
    requires s.populated
    requires Fetch(alias, DedupFilter(s.properties, alias, filter), remote, machineName, wmic).Fail?
    ensures RequestData(s, Some(alias), filter, remote, machineName, wmic)
      == (s, Failed(Fetch(alias, DedupFilter(s.properties, alias, filter), remote, machineName, wmic).error))
  {
  }

  // ---------------------------------------------------------------------
  // The WMIData object
  // ---------------------------------------------------------------------

  /** The first ForEach of DeduplicateFilter, over the parsed filter of an
      alias with stored properties: a name is added when it is not a
      stored key and not yet in the list. */
  method KeepNew(stored: PropertyMap, names: seq<string>) returns (unique: seq<string>)
    ensures unique == UniqueNew(stored, names)
  {
    unique := [];
    var i := 0;
    while i < |names|
      invariant 0 <= i <= |names|
      invariant unique == UniqueNew(stored, names[..i])
    {
      UniqueNewStep(stored, names, i);
      if !ContainsKey(stored, names[i]) && names[i] !in unique {
        unique := unique + [names[i]];
      }
      i := i + 1;
    }
    assert names[..|names|] == names;
  }

  /** The loop that joins the kept names with commas. */
  method JoinFilter(unique: seq<string>) returns (newFilter: string)
    ensures newFilter == Join(unique, ',')
  {
    newFilter := "";
    var i := 0;
    while i < |unique|
      invariant 0 <= i <= |unique|
      invariant newFilter == Join(unique[..i], ',')
    {
      JoinPrefixStep(unique, ',', i);
      newFilter := newFilter + (if i > 0 then "," else "") + unique[i];
      i := i + 1;
    }
    assert unique[..|unique|] == unique;
  }

  class Store {
    var properties: map<Alias, PropertyMap>
    /** Set by the constructors and never read: every request goes to the
        local machine's name. */
    var nodeName: string
    var defaultPopulated: bool
    var isRemote: bool

    function State(): (s: Snapshot)
      reads this
      ensures s.properties == properties && s.populated == defaultPopulated
    {
      Snapshot(properties, defaultPopulated)
    }

    ghost predicate Valid()
      reads this
    {
      StoreInvariant(State())
    }

    /** WMIData(getDefault) with getDefault false: the local machine, local
        execution, nothing stored. */
    constructor Local(machineName: string)
      ensures Valid() && properties == map[] && !defaultPopulated
      ensures nodeName == machineName && !isRemote
    {
      nodeName := machineName;
      isRemote := false;
      new;
      InitializeProperties();
    }

    /** WMIData(nodeName, getDefault, remote) with getDefault false. */
    constructor ForNode(nodeName: string, remote: bool)
      ensures Valid() && properties == map[] && !defaultPopulated
      ensures this.nodeName == nodeName && isRemote == remote
    {
      this.nodeName := nodeName;
      isRemote := remote;
      new;
      InitializeProperties();
    }

    /** InitializeProperties: an empty store whose defaults are not yet
        requested. */
    method InitializeProperties()
      modifies this`properties, this`defaultPopulated
      ensures properties == map[] && !defaultPopulated
      ensures Valid()
    {
      properties := map[];
      defaultPopulated := false;
    }

    /** ParseWMIOutput(new WMIProcessor(request, filter, _isRemote).ExecuteRequest()),
        the step both GetDefault and GetData take. */
    method Request(request: Alias, filter: string, machineName: string, wmic: string -> Run)
      returns (r: Result<PropertyMap>)
      ensures r == Fetch(request, filter, isRemote, machineName, wmic)
    {
      var processor := new Processor.WithRequest(Some(request), filter, isRemote, machineName);
      var output := processor.ExecuteRequest(wmic);
      if output.Fail? {
        return Fail(output.error);
      }
      r := ParseWmiOutput(output.value);
    }

    /** GetDefault, with the two requests made one after the other. */
    method GetDefault(machineName: string, wmic: string -> Run) returns (o: Outcome)
      modifies this`properties, this`defaultPopulated
      ensures (State(), o) == Bootstrap(old(State()), isRemote, machineName, wmic)
      ensures old(Valid()) ==> Valid()
    {
      if defaultPopulated {
        return Pass;
      }
      defaultPopulated := true;
      o := LoadRequests(DefaultRequests, machineName, wmic);
    }

    /** The loop of GetDefault over its requests. */
    method LoadRequests(requests: seq<(Alias, string)>, machineName: string, wmic: string -> Run)
      returns (o: Outcome)
      modifies this`properties
      ensures (properties, o) == LoadDefaults(old(properties), requests, isRemote, machineName, wmic)
    {
      var i := 0;
      while i < |requests|
        invariant 0 <= i <= |requests|
        invariant LoadDefaults(properties, requests[i..], isRemote, machineName, wmic)
               == LoadDefaults(old(properties), requests, isRemote, machineName, wmic)
      {
        LoadDefaultsStep(properties, requests, i, isRemote, machineName, wmic);
        var (alias, filter) := requests[i];
        var parsed := Request(alias, filter, machineName, wmic);
        if parsed.Fail? {
          return Failed(parsed.error);
        }
        if alias in properties {
          return Failed(DuplicateKey);
        }
        properties := properties[alias := parsed.value];
        i := i + 1;
      }
      assert requests[i..] == [];
      return Pass;
    }

    /** DeduplicateFilter: one pass over the filter names keeping the new
        ones, then the kept names joined with commas. */
    method DeduplicateFilter(request: Alias, filter: string) returns (r: string)
      ensures r == DedupFilter(properties, request, filter)
    {
      var names := ParseFilter(filter);
      var unique: seq<string>;
      if request in properties {
        unique := KeepNew(properties[request], names);
      } else {
        unique := names;
      }
      r := JoinFilter(unique);
    }

    /** GetData: a null request is ignored; otherwise the defaults come
        first, then the deduplicated request is fetched and merged entry
        by entry into the alias's dictionary, or added as a new one. */
    method GetData(request: Option<Alias>, filter: string, machineName: string, wmic: string -> Run)
      returns (o: Outcome)
      modifies this`properties, this`defaultPopulated
      ensures (State(), o) == RequestData(old(State()), request, filter, isRemote, machineName, wmic)
      ensures old(Valid()) ==> Valid()
    {
      if request.None? {
        return Pass;
      }
      RequestDataSome(State(), request.value, filter, isRemote, machineName, wmic);
      if !defaultPopulated {
        var loaded := GetDefault(machineName, wmic);
        if loaded.Failed? {
          return loaded;
        }
      }
      o := FetchRequest(request.value, filter, machineName, wmic);
    }

    /** The body of GetData after the defaults. */
    method FetchRequest(alias: Alias, filter: string, machineName: string, wmic: string -> Run)
      returns (o: Outcome)
      modifies this`properties
      ensures (State(), o) == FetchInto(old(State()), alias, filter, isRemote, machineName, wmic)
    {
      ghost var s := State();
      var deduplicated := DeduplicateFilter(alias, filter);
      var parsed := Request(alias, deduplicated, machineName, wmic);
      FetchIntoCases(s, alias, filter, isRemote, machineName, wmic, parsed);
      if parsed.Fail? {
        return Failed(parsed.error);
      }
      StoreResult(alias, parsed.value);
      return Pass;
    }

    /** The fetched dictionary merged into the alias's one, or added as
        the alias's dictionary when there is none. */
    method StoreResult(alias: Alias, fetched: PropertyMap)
      modifies this`properties
      ensures properties == StoreFetched(old(properties), alias, fetched)
    {
      if alias in properties {
        MergeInto(alias, fetched);
      } else {
        properties := properties[alias := fetched];
      }
    }

    /** The Parallel.ForEach of GetData over the fetched entries, run one
        entry after the other. */
    method MergeInto(alias: Alias, fetched: PropertyMap)
      requires alias in properties
      modifies this`properties
      ensures properties == old(properties)[alias := Merge(old(properties)[alias], fetched)]
    {
      var i := 0;
      while i < |fetched|
        invariant 0 <= i <= |fetched|
        invariant properties == old(properties)[alias := Merge(old(properties)[alias], fetched[..i])]
      {
        MergeIntoStep(old(properties), alias, fetched, i, properties);
        properties := properties[alias := MergeEntry(properties[alias], fetched[i])];
        i := i + 1;
      }
      assert fetched[..|fetched|] == fetched;
    }
  }
}
