/** WMIData.ParseWMIOutput: the "/format:list" output of wmic, one
    Property=Value pair per line, read into a dictionary that compares keys
    without regard to case. */
module WmiOutput {
  import opened Results
  import opened Text
  import opened PropertyMaps

  /** Every key and value is non-empty and holds neither '=' nor a line
      break: what a line that was split at '=' can contribute. */
  ghost predicate CleanEntries(m: PropertyMap) {
    forall j :: 0 <= j < |m| ==>
      m[j].key != [] && m[j].value != []
      && '=' !in m[j].key && '=' !in m[j].value
      && NoLineBreak(m[j].key) && NoLineBreak(m[j].value)
  }

  /** The key a repeated property is stored under: the property name, a
      dash and the number of keys that already start with the name. */
  function RenamedKey(data: PropertyMap, name: string): (key: string)
    ensures |key| > |name| + 1 && key[..|name|] == name && key[|name|] == '-'
    ensures forall i :: |name| < i < |key| ==> IsDigit(key[i])
    ensures DigitsValue(key[|name| + 1..]) == CountStartingWith(data, name)
  {
    var n := CountStartingWith(data, name);
    NatToStringValue(n);
    assert (name + "-" + NatToString(n))[|name| + 1..] == NatToString(n);
    name + "-" + NatToString(n)
  }

  /** One pass of the loop body for a line read from the output: empty
      lines are skipped; otherwise the line is split at '=', and a pair
      with a non-empty name and value is added (a name already present,
      ignoring case, is renamed first). Reading the value of a line
      without '=' is IndexOutOfRangeException; a renamed key that is
      itself present makes Dictionary.Add throw. */
  function AddLine(data: PropertyMap, line: string): (r: Result<PropertyMap>)
    ensures line == [] ==> r == Ok(data)
    ensures r == Fail(IndexOutOfRange) <==> line != [] && '=' !in line
    ensures r.Fail? ==> r.error in {IndexOutOfRange, DuplicateKey}
    ensures r.Ok? ==> |data| <= |r.value| <= |data| + 1 && r.value[..|data|] == data
    ensures r.Ok? && UniqueKeys(data) ==> UniqueKeys(r.value)
  {
    if line == [] then Ok(data)
    else
      var propVal := Split(line, '=');
      SeparatorSplits(line);
      if propVal[0] == [] then Ok(data)
      else if |propVal| < 2 then Fail(IndexOutOfRange)
      else if propVal[1] == [] then Ok(data)
      else
        var name := propVal[0];
        var key := if ContainsKey(data, name) then RenamedKey(data, name) else name;
        match Add(data, key, propVal[1])
        case Fail(e) => Fail(e)
        case Ok(m) => Ok(m)
  }

  /** A line splits into more than one piece exactly when it holds '='. */
  lemma {:induction false} SeparatorSplits(s: string)
    ensures |Split(s, '=')| >= 2 <==> '=' in s
    decreases |s|
  {
    if s != [] {
      SeparatorSplits(s[1..]);
      assert '=' in s <==> s[0] == '=' || '=' in s[1..];
    }
  }

  /** AddLine keeps every key and value clean. */
  lemma AddLineClean(data: PropertyMap, line: string)
    requires CleanEntries(data) && NoLineBreak(line)
    ensures AddLine(data, line).Ok? ==> CleanEntries(AddLine(data, line).value)
  {
    var r := AddLine(data, line);
    if r.Ok? && |r.value| == |data| + 1 {
      var propVal := Split(line, '=');
      SplitNoLineBreak(line, '=');
      var name := propVal[0];
      RenamedKeyClean(data, name);
      assert r.value[|data|].value == propVal[1];
      assert r.value[..|data|] == data;
    }
  }

  /** The pieces of a split hold no line break when the whole holds none. */
  lemma {:induction false} SplitNoLineBreak(s: string, sep: char)
    requires NoLineBreak(s)
    ensures forall k :: 0 <= k < |Split(s, sep)| ==> NoLineBreak(Split(s, sep)[k])
    decreases |s|
  {
    if s != [] {
      SplitNoLineBreak(s[1..], sep);
    }
  }

  /** A renamed key of a clean name is clean. */
  lemma RenamedKeyClean(data: PropertyMap, name: string)
    requires name != [] && '=' !in name && NoLineBreak(name)
    ensures '=' !in RenamedKey(data, name) && NoLineBreak(RenamedKey(data, name))
  {
    var key := RenamedKey(data, name);
    forall i | 0 <= i < |key| ensures key[i] != '=' && !IsLineBreak(key[i]) {
      if i < |name| {
        assert key[i] == name[i];
      }
    }
  }

  /** The lines, from the given dictionary on, until the first exception. */
  function ParseLines(lines: seq<string>, data: PropertyMap): (r: Result<PropertyMap>)
    ensures r.Ok? ==> |data| <= |r.value| <= |data| + |lines| && r.value[..|data|] == data
    ensures r.Ok? ==> forall k :: 0 <= k < |lines| ==> lines[k] == [] || '=' in lines[k]
    ensures r.Fail? ==> r.error in {IndexOutOfRange, DuplicateKey}
    ensures r.Ok? && UniqueKeys(data) ==> UniqueKeys(r.value)
    decreases |lines|
  {
    if lines == [] then Ok(data)
    else
      match AddLine(data, lines[0])
      case Fail(e) => Fail(e)
      case Ok(next) =>
        var r := ParseLines(lines[1..], next);
        assert r.Ok? ==> r.value[..|data|] == next[..|data|];
        assert r.Ok? ==> forall k :: 1 <= k < |lines| ==> lines[k] == lines[1..][k - 1];
        r
  }

  /** ParseWMIOutput as a value: every line of the output, from an empty
      dictionary. */
  function Parse(output: string): (r: Result<PropertyMap>)
    ensures r.Ok? ==> UniqueKeys(r.value) && |r.value| <= |Lines(output)|
    ensures r.Fail? ==> r.error in {IndexOutOfRange, DuplicateKey}
  {
    ParseLines(Lines(output), [])
  }

  /** Parsing only ever stores clean keys and values. */
  lemma {:induction false} ParseLinesClean(lines: seq<string>, data: PropertyMap)
    requires CleanEntries(data)
    requires forall k :: 0 <= k < |lines| ==> NoLineBreak(lines[k])
    ensures ParseLines(lines, data).Ok? ==> CleanEntries(ParseLines(lines, data).value)
    decreases |lines|
  {
    if lines != [] {
      AddLineClean(data, lines[0]);
      var next := AddLine(data, lines[0]);
      if next.Ok? {
        ParseLinesClean(lines[1..], next.value);
      }
    }
  }

  lemma ParseClean(output: string)
    ensures Parse(output).Ok? ==> CleanEntries(Parse(output).value)
  {
    var lines := Lines(output);
    forall k | 0 <= k < |lines| ensures NoLineBreak(lines[k]) {
    }
    ParseLinesClean(lines, []);
  }

  /** A line that holds no '=' stops parsing with IndexOutOfRangeException,
      whatever comes before it. */
  lemma ParseNoSeparator(output: string, k: int)
    requires 0 <= k < |Lines(output)|
    requires Lines(output)[k] != [] && '=' !in Lines(output)[k]
    ensures Parse(output).Fail?
  {
  }

  // ---------------------------------------------------------------------
  // Single lines
  // ---------------------------------------------------------------------

  /** A Property=Value line whose property is new is appended as it reads. */
  lemma AddLineNew(data: PropertyMap, name: string, value: string)
    requires name != [] && value != [] && '=' !in name && '=' !in value
    requires !ContainsKey(data, name)
    ensures AddLine(data, name + "=" + value) == Ok(data + [Entry(name, value)])
    ensures Lookup(AddLine(data, name + "=" + value).value, name) == Some(value)
  {
    SplitPair(name, value);
  }

  lemma SplitPair(name: string, value: string)
    requires '=' !in name && '=' !in value
    ensures Split(name + "=" + value, '=') == [name, value]
  {
    SplitAtFirst(name, '=', value);
    SplitNoSeparator(value, '=');
  }

  /** Text after a second '=' is dropped: "a=b=c" stores b under a. */
  lemma AddLineExtraSeparator(data: PropertyMap, name: string, value: string, extra: string)
    requires '=' !in name && '=' !in value
    ensures AddLine(data, name + "=" + value + "=" + extra) == AddLine(data, name + "=" + value)
  {
    SplitPair(name, value);
    SplitAtFirst(name, '=', value + "=" + extra);
    SplitAtFirst(value, '=', extra);
    assert name + "=" + value + "=" + extra == name + "=" + (value + "=" + extra);
  }

  /** A line with an empty property name or an empty value is skipped. */
  lemma AddLineSkipsEmptyParts(data: PropertyMap, name: string, value: string)
    requires '=' !in name && '=' !in value
    requires name == [] || value == []
    ensures AddLine(data, name + "=" + value) == Ok(data)
  {
    SplitPair(name, value);
  }

  /** A property already present (ignoring case) is stored under its
      renamed key, and the entry already there keeps its value. */
  lemma AddLineRepeated(data: PropertyMap, name: string, value: string)
    requires name != [] && value != [] && '=' !in name && '=' !in value
    requires ContainsKey(data, name)
    ensures AddLine(data, name + "=" + value) == Add(data, RenamedKey(data, name), value)
    ensures AddLine(data, name + "=" + value).Ok? ==> Lookup(AddLine(data, name + "=" + value).value, name) == Lookup(data, name)
  {
    SplitPair(name, value);
    var key := RenamedKey(data, name);
    var r := Add(data, key, value);
    if r.Ok? {
      assert !EqualsIgnoreCase(key, name);
      AppendedOthers(data, key, value);
      EqualsIgnoreCaseEquivalence(name, key, name);
    }
  }

  // ---------------------------------------------------------------------
  // Whole outputs
  // ---------------------------------------------------------------------

  /** One property line ending in a line break gives a one-entry
      dictionary; the first key is the property as wmic spelled it. */
  lemma ParseSingleProperty(name: string, value: string, terminator: string)
    requires name != [] && value != [] && '=' !in name && '=' !in value
    requires NoLineBreak(name) && NoLineBreak(value)
    requires terminator == "\n" || terminator == "\r\n"
    ensures Parse(name + "=" + value + terminator) == Ok([Entry(name, value)])
  {
    var line := name + "=" + value;
    assert NoLineBreak(line) by {
      forall i | 0 <= i < |line| ensures !IsLineBreak(line[i]) {
        if i > |name| {
          assert line[i] == value[i - |name| - 1];
        } else if i < |name| {
          assert line[i] == name[i];
        }
      }
    }
    LinesCons(line, terminator, "");
    assert line + terminator + "" == name + "=" + value + terminator;
    assert Lines("") == [];
    assert Lines(line + terminator) == [line];
    AddLineNew([], name, value);
    assert ParseLines([line], []) == ParseLines([], [Entry(name, value)]);
  }

  /** Two lines are the second line added to what the first gave. */
  lemma ParseTwoLines(data: PropertyMap, first: string, second: string)
    ensures ParseLines([first, second], data)
      == match AddLine(data, first)
         case Fail(e) => Fail(e)
         case Ok(next) => AddLine(next, second)
  {
    assert [first, second][1..] == [second];
    var next := AddLine(data, first);
    if next.Ok? {
      assert [second][1..] == [];
      var last := AddLine(next.value, second);
      assert ParseLines([second], next.value) == last;
    }
  }

  /** The first property line read into an empty dictionary. */
  lemma FirstLine(name: string, value: string)
    requires name != [] && value != [] && '=' !in name && '=' !in value
    ensures AddLine([], name + "=" + value) == Ok([Entry(name, value)])
  {
    AddLineNew([], name, value);
    assert [] + [Entry(name, value)] == [Entry(name, value)];
  }

  /** A property listed twice: the second value goes under name-1. */
  lemma ParseRepeatedProperty(name: string, first: string, second: string)
    requires name != [] && first != [] && second != []
    requires '=' !in name && '=' !in first && '=' !in second
    ensures ParseLines([name + "=" + first, name + "=" + second], [])
      == Ok([Entry(name, first), Entry(name + "-1", second)])
  {
    ParseTwoLines([], name + "=" + first, name + "=" + second);
    FirstLine(name, first);
    RepeatedOnce(name, first, second);
  }

  /** The second line of ParseRepeatedProperty. */
  lemma RepeatedOnce(name: string, first: string, second: string)
    requires name != [] && first != [] && second != []
    requires '=' !in name && '=' !in first && '=' !in second
    ensures AddLine([Entry(name, first)], name + "=" + second)
      == Ok([Entry(name, first), Entry(name + "-1", second)])
  {
    var m := [Entry(name, first)];
    assert ContainsKey(m, name) by {
      assert EqualsIgnoreCase(m[0].key, name);
    }
    assert CountStartingWith(m, name) == 1 by {
      assert m[0].key[..|name|] == name;
    }
    assert NatToString(1) == "1";
    AddLineRepeated(m, name, second);
    var key := name + "-1";
    assert RenamedKey(m, name) == key;
    assert !ContainsKey(m, key) by {
      assert |m[0].key| != |key|;
    }
    assert m + [Entry(key, second)] == [Entry(name, first), Entry(key, second)];
  }

  /** The renamed key can already be present: properties Name, Name-2 and
      Name again make Dictionary.Add throw on the third line. */
  lemma ParseRenameCollision(name: string, first: string, second: string, third: string)
    requires name != [] && first != [] && second != [] && third != []
    requires '=' !in name && '=' !in first && '=' !in second && '=' !in third
    ensures ParseLines([name + "=" + first, name + "-2=" + second, name + "=" + third], []) == Fail(DuplicateKey)
  {
    var lines := [name + "=" + first, name + "-2=" + second, name + "=" + third];
    assert lines[1..] == [name + "-2=" + second, name + "=" + third];
    FirstLine(name, first);
    ParseTwoLines([Entry(name, first)], name + "-2=" + second, name + "=" + third);
    CollisionSecond(name, first, second);
    CollisionThird(name, first, second, third);
  }

  /** The second line of ParseRenameCollision is a new property. */
  lemma CollisionSecond(name: string, first: string, second: string)
    requires name != [] && first != [] && second != []
    requires '=' !in name && '=' !in first && '=' !in second
    ensures AddLine([Entry(name, first)], name + "-2=" + second)
      == Ok([Entry(name, first), Entry(name + "-2", second)])
  {
    var key := name + "-2";
    assert '=' !in key by {
      forall i | 0 <= i < |key| ensures key[i] != '=' {
        if i < |name| { assert key[i] == name[i]; }
      }
    }
    assert key + "=" + second == name + "-2=" + second;
    var m1 := [Entry(name, first)];
    assert !ContainsKey(m1, key) by {
      assert |m1[0].key| != |key|;
    }
    AddLineNew(m1, key, second);
    assert m1 + [Entry(key, second)] == [Entry(name, first), Entry(key, second)];
  }

  /** The third line of ParseRenameCollision: the property is present, and
      so is its renamed key. */
  lemma CollisionThird(name: string, first: string, second: string, third: string)
    requires name != [] && third != [] && '=' !in name && '=' !in third
    ensures AddLine([Entry(name, first), Entry(name + "-2", second)], name + "=" + third) == Fail(DuplicateKey)
  {
    var key := name + "-2";
    var m2 := [Entry(name, first), Entry(key, second)];
    assert ContainsKey(m2, name) by {
      assert EqualsIgnoreCase(m2[0].key, name);
    }
    BothStartWith(name, first, second);
    assert NatToString(2) == "2";
    AddLineRepeated(m2, name, third);
    assert RenamedKey(m2, name) == key;
    assert ContainsKey(m2, key) by {
      assert EqualsIgnoreCase(m2[1].key, key);
    }
  }

  /** Both keys of the dictionary CollisionThird starts from begin with the name. */
  lemma BothStartWith(name: string, first: string, second: string)
    ensures CountStartingWith([Entry(name, first), Entry(name + "-2", second)], name) == 2
  {
    var m2 := [Entry(name, first), Entry(name + "-2", second)];
    assert m2[0].key[..|name|] == name;
    assert m2[1].key[..|name|] == name;
    assert m2[1..][1..] == [];
  }

  /** The renaming counts keys with a case-sensitive prefix test, while the
      presence test ignores case: "name" then "Name" stores "Name-0". */
  lemma ParseRenameIgnoresCase(lower: string, upper: string, first: string, second: string)
    requires lower != [] && '=' !in lower && '=' !in upper
    requires EqualsIgnoreCase(lower, upper) && lower != upper
    requires first != [] && second != [] && '=' !in first && '=' !in second
    ensures ParseLines([lower + "=" + first, upper + "=" + second], [])
      == Ok([Entry(lower, first), Entry(upper + "-0", second)])
  {
    ParseTwoLines([], lower + "=" + first, upper + "=" + second);
    FirstLine(lower, first);
    RenamedFromZero(lower, upper, first, second);
  }

  /** The second line of ParseRenameIgnoresCase. */
  lemma RenamedFromZero(lower: string, upper: string, first: string, second: string)
    requires lower != [] && '=' !in lower && '=' !in upper
    requires EqualsIgnoreCase(lower, upper) && lower != upper
    requires second != [] && '=' !in second
    ensures AddLine([Entry(lower, first)], upper + "=" + second)
      == Ok([Entry(lower, first), Entry(upper + "-0", second)])
  {
    var m := [Entry(lower, first)];
    assert ContainsKey(m, upper) by {
      assert EqualsIgnoreCase(m[0].key, upper);
    }
    assert CountStartingWith(m, upper) == 0 by {
      assert m[0].key[..|upper|] == lower;
    }
    assert NatToString(0) == "0";
    AddLineRepeated(m, upper, second);
    var key := upper + "-0";
    assert RenamedKey(m, upper) == key;
    assert !ContainsKey(m, key) by {
      assert |m[0].key| != |key|;
    }
    assert m + [Entry(key, second)] == [Entry(lower, first), Entry(key, second)];
  }

  // ---------------------------------------------------------------------
  // The method
  // ---------------------------------------------------------------------

  /** ParseWMIOutput: reads the output line by line until ReadLine returns
      null, handling each line as AddLine describes. */
  method ParseWmiOutput(output: string) returns (r: Result<PropertyMap>)
    ensures r == Parse(output)
  {
    var data: PropertyMap := [];
    var rest := output;
    while true
      invariant ParseLines(Lines(rest), data) == Parse(output)
      decreases |rest|
    {
      if rest == [] {
        break;
      }
      var (line, next) := ReadLine(rest);
      rest := next;
      if line == [] {
        continue;
      }
      var propVal := Split(line, '=');
      if propVal[0] != [] {
        if |propVal| < 2 {
          return Fail(IndexOutOfRange);
        }
        if propVal[1] != [] {
          var key := propVal[0];
          if ContainsKey(data, key) {
            key := key + "-" + NatToString(CountStartingWith(data, propVal[0]));
          }
          var added := Add(data, key, propVal[1]);
          if added.Fail? {
            return Fail(added.error);
          }
          data := added.value;
        }
      }
    }
    return Ok(data);
  }
}
