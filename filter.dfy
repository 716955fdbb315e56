/** The filter handling of WMIData: ParseFilter splits a comma separated
    list of property names, and DeduplicateFilter drops the names that are
    repeated or already stored for the alias before a request is made. */
module WmiFilter {
  import opened Text
  import opened PropertyMaps
  import opened WmiAlias

  /** ParseFilter: no names for an empty filter, the filter itself when it
      holds no comma, otherwise its comma separated pieces. The pieces are
      not trimmed: the Trim in the source assigns to the loop variable and
      is lost. */
  function ParseFilter(filter: string): (names: seq<string>)
    ensures names == [] <==> filter == []
    ensures filter != [] ==> Join(names, ',') == filter
    ensures forall k :: 0 <= k < |names| ==> ',' !in names[k]
    ensures filter != [] && ',' !in filter ==> names == [filter]
  {
    if filter == [] then []
    else if ',' !in filter then [filter]
    else
      JoinSplit(filter, ',');
      Split(filter, ',')
  }

  /** The no-comma branch only saves work: splitting would give the same. */
  lemma ParseFilterIsSplit(filter: string)
    requires filter != []
    ensures ParseFilter(filter) == Split(filter, ',')
  {
    if ',' !in filter {
      SplitNoSeparator(filter, ',');
    }
  }

  /** Spaces around the names are kept: "name, vendor" asks for the
      property " vendor". */
  lemma ParseFilterKeepsSpaces(first: string, second: string)
    requires ',' !in first && ',' !in second
    ensures ParseFilter(first + "," + second) == [first, second]
  {
    var f := first + "," + second;
    assert f[|first|] == ',';
    SplitAtFirst(first, ',', second);
    SplitNoSeparator(second, ',');
  }

  /** The names of `names`, in order, that are not keys of the stored
      properties (ignoring case), each kept at its first occurrence
      (compared exactly, as List.Contains does). */
  function UniqueNew(stored: PropertyMap, names: seq<string>): (r: seq<string>)
    ensures |r| <= |names|
    ensures forall x :: x in r <==> x in names && !ContainsKey(stored, x)
    ensures forall i, j :: 0 <= i < j < |r| ==> r[i] != r[j]
    decreases |names|
  {
    if names == [] then []
    else
      var acc := UniqueNew(stored, names[..|names| - 1]);
      var name := names[|names| - 1];
      assert forall x :: x in names <==> x in names[..|names| - 1] || x == name;
      if !ContainsKey(stored, name) && name !in acc then acc + [name] else acc
  }

  /** UniqueNew over one more name. */
  lemma UniqueNewStep(stored: PropertyMap, names: seq<string>, i: int)
    requires 0 <= i < |names|
    ensures var acc := UniqueNew(stored, names[..i]);
      UniqueNew(stored, names[..i + 1])
      == if !ContainsKey(stored, names[i]) && names[i] !in acc then acc + [names[i]] else acc
  {
    assert names[..i + 1][..i] == names[..i];
  }

  /** A list that is already free of repeats and of stored names is kept
      as it is. */
  lemma {:induction false} UniqueNewKeepsFresh(stored: PropertyMap, names: seq<string>)
    requires forall i, j :: 0 <= i < j < |names| ==> names[i] != names[j]
    requires forall k :: 0 <= k < |names| ==> !ContainsKey(stored, names[k])
    ensures UniqueNew(stored, names) == names
    decreases |names|
  {
    if names != [] {
      var init := names[..|names| - 1];
      UniqueNewKeepsFresh(stored, init);
      assert names[|names| - 1] !in init;
      assert init + [names[|names| - 1]] == names;
    }
  }

  /** DeduplicateFilter as a value: for an alias with stored properties,
      the new unrepeated names; for any other alias, every name; joined
      again with commas. */
  function DedupFilter(properties: map<Alias, PropertyMap>, request: Alias, filter: string): (r: string)
    ensures request !in properties ==> r == filter
    ensures request in properties ==>
      Join(UniqueNew(properties[request], ParseFilter(filter)), ',') == r
  {
    var names := ParseFilter(filter);
    if request in properties then Join(UniqueNew(properties[request], names), ',')
    else
      JoinSplit(filter, ',');
      Join(names, ',')
  }

  /** The deduplicated filter parses back into the deduplicated names,
      except when the only name kept is the empty one: that joins to the
      empty filter, which has no names. */
  lemma DedupFilterParses(properties: map<Alias, PropertyMap>, request: Alias, filter: string)
    requires request in properties
    ensures var u := UniqueNew(properties[request], ParseFilter(filter));
      var r := DedupFilter(properties, request, filter);
      if u == [""] then r == "" else ParseFilter(r) == u
  {
    var u := UniqueNew(properties[request], ParseFilter(filter));
    var r := DedupFilter(properties, request, filter);
    forall k | 0 <= k < |u| ensures ',' !in u[k] {
      assert u[k] in ParseFilter(filter);
    }
    if u == [] {
      assert r == [];
    } else if u != [""] {
      SplitJoin(u, ',');
      if |u| == 1 {
        assert r == u[0];
      } else {
        assert r == u[0] + [','] + Join(u[1..], ',');
        assert r[|u[0]|] == ',';
      }
      assert r != [];
      ParseFilterIsSplit(r);
    }
  }

  /** Deduplicating a filter a second time against the same properties
      changes nothing. */
  lemma DedupFilterIdempotent(properties: map<Alias, PropertyMap>, request: Alias, filter: string)
    ensures DedupFilter(properties, request, DedupFilter(properties, request, filter))
      == DedupFilter(properties, request, filter)
  {
    if request in properties {
      var stored := properties[request];
      var u := UniqueNew(stored, ParseFilter(filter));
      DedupFilterParses(properties, request, filter);
      if u != [""] {
        forall k | 0 <= k < |u| ensures !ContainsKey(stored, u[k]) {
          assert u[k] in u;
        }
        UniqueNewKeepsFresh(stored, u);
      }
    }
  }

  /** The unit tests' case: with name and vendor stored, asking for name,
      vendor and description leaves description alone; once description
      is stored too, nothing is left. */
  lemma DedupFilterExample(properties: map<Alias, PropertyMap>, request: Alias, a: string, b: string, c: string)
    requires request in properties
    requires ',' !in a && ',' !in b && ',' !in c
    requires ContainsKey(properties[request], a) && ContainsKey(properties[request], b)
    ensures !ContainsKey(properties[request], c) ==> DedupFilter(properties, request, a + "," + b + "," + c) == c
    ensures ContainsKey(properties[request], c) ==> DedupFilter(properties, request, a + "," + b + "," + c) == ""
  {
    var stored := properties[request];
    var f := a + "," + b + "," + c;
    SplitAtFirst(a, ',', b + "," + c);
    SplitAtFirst(b, ',', c);
    SplitNoSeparator(c, ',');
    assert f == a + [','] + (b + [','] + c);
    assert f[|a|] == ',';
    ParseFilterIsSplit(f);
    var names := [a, b, c];
    assert ParseFilter(f) == names;
    assert names[..2][..1] == [a];
    assert [a][..0] == [];
    assert UniqueNew(stored, [a]) == [];
    assert UniqueNew(stored, names[..2]) == [];
  }
}
