# EasyWMI in Dafny

A model of the core of EasyWMI, a small C# library that collects machine
information by running the Windows `wmic` tool through `cmd.exe` and
parsing what it prints. The library has three parts:

- `WMI_ALIAS`: the `Alias` value type and the catalog of the 57 wmic
  aliases it ships, including the `NONE` sentinel.
- `WMIProcessor`: one wmic query. It builds the argument string, runs the
  process, and returns standard output, a line break and standard error,
  trimmed.
- `WMIData`: the store of everything requested so far, one
  case-insensitive property dictionary per alias. `GetDefault` loads the
  `csproduct` and `os` defaults once. `GetData` fetches an alias with a
  deduplicated filter and merges the answer into what is already stored.
  `ParseWMIOutput` turns wmic's `/format:list` output into a dictionary.

Modules, one per concern:

- `Results`: the exceptions of the core as an `Error` datatype, plus
  `Result`, `Option` and `Outcome` wrappers. A nullable reference is an
  `Option`, and a throw is a `Fail`/`Failed` value.
- `Text`: the .NET string operations the core relies on, modelled on
  `seq<char>`. These are `String.Split`, the joining loops,
  `StringReader.ReadLine`, `String.Trim`, `OrdinalIgnoreCase` equality,
  `StartsWith` and `Int32.ToString`.
- `WmiAlias`: `Alias`, its equality members and the catalog.
- `PropertyMaps`: the `Dictionary<String, String>` built with
  `StringComparer.OrdinalIgnoreCase`. It is an insertion-ordered sequence
  of entries with `ContainsKey`, the indexer (`Lookup`, `SetItem`) and
  `Add`.
- `WmiProcessor`: the command line, `ValidateTask`, `GetTaskOutput`,
  `ExecuteRequest` as a function, and the `Processor` class with its
  fields, constructors, setters and methods.
- `WmiOutput`: `ParseWMIOutput`, as a function over lines and as the
  method with its `while (true)` loop.
- `WmiFilter`: `ParseFilter` and the value that `DeduplicateFilter`
  computes.
- `WmiData`: `GetDefault` and `GetData` as functions over a `Snapshot` of
  the store. The `Store` class holds the fields of `WMIData`, and its
  methods are proved equal to those functions.

Two things are parameters:

- The wmic process is the parameter `wmic: string -> Run`. It maps the
  argument string to what the run produced: both streams read to the end
  (`Completed`), or an exception from `Process.Start`/`WaitForExit`
  (`Crashed`).
- `Environment.MachineName` is the parameter `machineName`.

Behaviour of the code that a reader might not expect, modelled as
written:

- `GetData` returns early only for a null alias (WMIData.cs:121-122).
  `GetData(WMI_ALIAS.NONE, ...)` first loads the defaults and
  deduplicates the filter. Then `ExecuteRequest` finds the request
  invalid and throws `ArgumentException` (WMIProcessor.cs:167 and 185),
  which the model reports as `MissingRequest`.
- A line of wmic output is split at every `=` (WMIData.cs:186), and
  only the first two pieces are used (WMIData.cs:188-196). So `a=b=c`
  stores `b` under `a` (`AddLineExtraSeparator`).
- Reading `propVal[VALUE]` on a non-empty line without `=`
  (WMIData.cs:189) throws `IndexOutOfRangeException`, which ends parsing
  (`ParseNoSeparator`).
- `ParseFilter`'s doc comment says it trims the filter keys
  (WMIData.cs:205). The `Trim` at WMIData.cs:218, however, assigns to the
  lambda's parameter only, so the returned names keep their spaces
  (`ParseFilterKeepsSpaces`).
- `WMIData` stores the node name given to its constructor
  (WMIData.cs:81) but never hands it to a `WMIProcessor`. Every processor
  it creates (WMIData.cs:107, 131) uses the constructor that takes
  `Environment.MachineName` (WMIProcessor.cs:139). So a remote `WMIData`
  puts `/node:<local machine name>` on its command lines. `Fetch` models
  this as written.

## Model

| member | source | states |
|---|---|---|
| WmiAlias.Alias.ToString | EasyWMI/EasyWMI/WMI_ALIAS.cs:64-67 | building an Alias from the returned name gives back an equal Alias |
| WmiAlias.EmptyAlias | EasyWMI/EasyWMI/WMI_ALIAS.cs:37-40 | the parameterless constructor gives the empty name, which is NONE |
| WmiAlias.Equals | EasyWMI/EasyWMI/WMI_ALIAS.cs:74-84 | true exactly for an Alias object with the same name; false for null and for other classes |
| WmiAlias.EqualOp | EasyWMI/EasyWMI/WMI_ALIAS.cs:101-114 | operator == holds exactly when both are null or both name the same alias; one null side gives false |
| WmiAlias.NotEqualOp | EasyWMI/EasyWMI/WMI_ALIAS.cs:122-125 | operator != throws NullReferenceException exactly when a side is null; otherwise it is the negation of == |
| WmiAlias.HashCode | EasyWMI/EasyWMI/WMI_ALIAS.cs:90-93 | the hash of an alias is the string hash of the name of any alias equal to it by Equals |
| WmiAlias.EqualsConsistentWithHash | EasyWMI/EasyWMI/WMI_ALIAS.cs:74-93 | aliases equal by Equals have equal hash codes |
| WmiAlias.EqualsIsEquivalence | EasyWMI/EasyWMI/WMI_ALIAS.cs:74-114 | Equals is reflexive, symmetric and transitive, and agrees with operator == on non-null aliases |
| WmiAlias.CatalogPositions | EasyWMI/EasyWMI/WMI_ALIAS.cs:133-189 | every catalog constant is found at its own position by its name |
| WmiAlias.CatalogDistinct | EasyWMI/EasyWMI/WMI_ALIAS.cs:133-189 | the catalog has 57 constants; NONE alone has the empty name; no two constants share a name |
| Text.Split | EasyWMI/EasyWMI/WMIData.cs:186 | String.Split gives at least one piece, and no piece holds the separator |
| Text.Join | EasyWMI/EasyWMI/WMIData.cs:249-254 | the comma-joined filter starts with the first name |
| Text.JoinSeparator | EasyWMI/EasyWMI/WMIData.cs:249-254 | joining separator-free names puts a separator in exactly when there are two names or more |
| Text.JoinSplit | EasyWMI/EasyWMI/WMIData.cs:217 | joining the pieces of a split with the separator gives back the string |
| Text.SplitJoin | EasyWMI/EasyWMI/WMIData.cs:250-253 | splitting a join of separator-free pieces gives back the pieces |
| Text.ReadLine | EasyWMI/EasyWMI/WMIData.cs:176 | StringReader.ReadLine returns the text up to the first line break and consumes that break (CR, LF or CRLF); the rest is shorter |
| Text.Lines | EasyWMI/EasyWMI/WMIData.cs:172-183 | the lines ReadLine delivers until it returns null; none holds a line break |
| Text.LinesCons | EasyWMI/EasyWMI/WMIData.cs:176 | a line followed by "\n", "\r\n", or a "\r" that no "\n" follows, is read as that line, then the lines of the rest |
| Text.WhiteSpaceClasses | EasyWMI/EasyWMI/WMIProcessor.cs:269-276 | Char.IsWhiteSpace holds for CR, LF, tab and space, so NewLine is whitespace; it fails for every printable ASCII character |
| Text.Trim | EasyWMI/EasyWMI/WMIProcessor.cs:276 | String.Trim gives the empty string exactly for all-whitespace input, otherwise the slice between the outer whitespace, with non-whitespace ends |
| Text.TrimPadded | EasyWMI/EasyWMI/WMIProcessor.cs:276 | Trim removes exactly the whitespace padding around a core with non-whitespace ends |
| Text.TrimIgnoresTrailing | EasyWMI/EasyWMI/WMIProcessor.cs:269-276 | appending whitespace does not change the trimmed string |
| Text.TrimIdempotent | EasyWMI/EasyWMI/WMIProcessor.cs:276 | trimming twice is trimming once |
| Text.EqualsIgnoreCaseLetters | EasyWMI/EasyWMI/WMIData.cs:170 | OrdinalIgnoreCase equality holds exactly for strings of equal length whose characters agree or are the two cases of the same ASCII letter; equal strings are equal ignoring case |
| Text.StartsWithConcat | EasyWMI/EasyWMI/WMIData.cs:193 | StartsWith holds exactly when the string is the prefix followed by more text, compared character by character with case |
| Text.NatToString | EasyWMI/EasyWMI/WMIData.cs:193 | Int32.ToString of a count is a non-empty digit string |
| Text.NatToStringValue | EasyWMI/EasyWMI/WMIData.cs:193 | the digit string reads back as the number it was made from |
| PropertyMaps.EqualsIgnoreCaseEquivalence | EasyWMI/EasyWMI/WMIData.cs:170 | OrdinalIgnoreCase equality is an equivalence relation |
| PropertyMaps.IndexOfKey | EasyWMI/EasyWMI/WMIData.cs:191 | the first slot whose key equals the given one ignoring case, or -1 exactly when no key does |
| PropertyMaps.ContainsKeyMeans | EasyWMI/EasyWMI/WMIData.cs:191 | Dictionary.ContainsKey holds exactly when some stored key equals the given one ignoring case |
| PropertyMaps.Lookup | EasyWMI/EasyWMI/WMIData.cs:137 | the lookup misses exactly when ContainsKey is false; a hit is the value of a matching key |
| PropertyMaps.Keys | EasyWMI/EasyWMI/WMIData.cs:193 | the keys in enumeration order, one per entry |
| PropertyMaps.LookupUnique | EasyWMI/EasyWMI/WMIData.cs:137-141 | with unique keys, the entry at a slot is the one a lookup of its key finds, in any case |
| PropertyMaps.Add | EasyWMI/EasyWMI/WMIData.cs:196 | Dictionary.Add throws a duplicate-key ArgumentException exactly when the key is present ignoring case; otherwise it appends the entry, which a lookup then finds, and keys stay unique |
| PropertyMaps.AppendedLookup | EasyWMI/EasyWMI/WMIData.cs:141 | appending an absent key makes it findable with its value and keeps keys unique |
| PropertyMaps.SetItem | EasyWMI/EasyWMI/WMIData.cs:138 | the indexer setter makes the key find the new value. A present key keeps every key and slot; an absent key is appended. Other keys' lookups are unchanged, and uniqueness is kept |
| PropertyMaps.AppendedOthers | EasyWMI/EasyWMI/WMIData.cs:141 | appending an entry changes no lookup of a different key |
| PropertyMaps.UpdatedLookup | EasyWMI/EasyWMI/WMIData.cs:138 | overwriting the value at a key's first slot keeps the keys; that key finds the new value, and other keys are unchanged |
| PropertyMaps.CountStartingWith | EasyWMI/EasyWMI/WMIData.cs:193 | the count of keys starting with a prefix is zero exactly when no key starts with it |
| WmiProcessor.ArgumentWords | EasyWMI/EasyWMI/WMIProcessor.cs:219-234 | the command line starts with /C wmic and ends with /format:list; every word is non-empty; the alias appears exactly when it is not empty |
| WmiProcessor.NodeWords | EasyWMI/EasyWMI/WMIProcessor.cs:225 | the /node: switch is present exactly when processing remotely |
| WmiProcessor.QueryWords | EasyWMI/EasyWMI/WMIProcessor.cs:226-231 | alias, get, filter and format words, with format last |
| WmiProcessor.Optional | EasyWMI/EasyWMI/WMIProcessor.cs:227-230 | an empty alias or filter contributes no word |
| WmiProcessor.CommandLine | EasyWMI/EasyWMI/WMIProcessor.cs:219-234 | when no field holds a space, splitting the command line at spaces gives the words back |
| WmiProcessor.CommandLinePieces | EasyWMI/EasyWMI/WMIProcessor.cs:219-234 | the joined words equal the pieces in the order the StringBuilder appends them |
| WmiProcessor.RemoteInsertsNode | EasyWMI/EasyWMI/WMIProcessor.cs:225 | remote execution only inserts "/node:<name> " after "/C wmic "; otherwise the node name is unused |
| WmiProcessor.LocalArgumentsExample | EasyWMITest/WMIProcessorTests.cs:21-23 | the os/filter processor's arguments are "/C wmic os get filter /format:list" |
| WmiProcessor.RemoteArgumentsExample | EasyWMITest/WMIProcessorTests.cs:29-32 | remotely for node 10.1.2.8 they are "/C wmic /node:10.1.2.8 os get filter /format:list" |
| WmiProcessor.RemoteProcessorExample | EasyWMITest/WMIProcessorTests.cs:29-32 | building the node processor, setting RemoteExecute and calling GetTaskArguments yields the expected string |
| WmiProcessor.ValidateTask | EasyWMI/EasyWMI/WMIProcessor.cs:194-200 | a request is valid exactly when it is not NONE (a null request passes) |
| WmiProcessor.TaskOutput | EasyWMI/EasyWMI/WMIProcessor.cs:261-277 | the output is empty exactly when both streams are whitespace only; otherwise it has non-whitespace ends |
| WmiProcessor.TaskOutputWithoutErrors | EasyWMI/EasyWMI/WMIProcessor.cs:261-277 | with a blank error stream the output is the trimmed standard output |
| WmiProcessor.TaskOutputTrimmed | EasyWMI/EasyWMI/WMIProcessor.cs:276 | the output is already trimmed |
| WmiProcessor.Execute | EasyWMI/EasyWMI/WMIProcessor.cs:165-186 | NONE throws the missing-argument exception (and only NONE does); null throws NullReferenceException; a crashed run fails; a completed run gives its trimmed output |
| WmiProcessor.ExecutePaddedLine | EasyWMITest/WMIProcessorTests.cs:45-46 | a run whose output is one line padded with whitespace returns exactly that line |
| WmiProcessor.Processor.Default | EasyWMI/EasyWMI/WMIProcessor.cs:120-127 | NONE request, empty filter, local machine, local execution, no task |
| WmiProcessor.Processor.WithRequest | EasyWMI/EasyWMI/WMIProcessor.cs:135-142 | the given request, filter and switch; the node is the local machine |
| WmiProcessor.Processor.ForNode | EasyWMI/EasyWMI/WMIProcessor.cs:152-159 | the given node, request, filter and switch |
| WmiProcessor.Processor.SetNodeName | EasyWMI/EasyWMI/WMIProcessor.cs:64-67 | the NodeName setter changes only the node name |
| WmiProcessor.Processor.SetRequest | EasyWMI/EasyWMI/WMIProcessor.cs:77-80 | the Request setter changes only the request |
| WmiProcessor.Processor.SetFilter | EasyWMI/EasyWMI/WMIProcessor.cs:93-96 | the Filter setter changes only the filter |
| WmiProcessor.Processor.SetRemoteExecute | EasyWMI/EasyWMI/WMIProcessor.cs:109-112 | the RemoteExecute setter changes only the switch |
| WmiProcessor.Processor.GetTaskArguments | EasyWMI/EasyWMI/WMIProcessor.cs:219-234 | the appended pieces equal the command line of the fields; a null request throws NullReferenceException |
| WmiProcessor.Processor.ExecuteRequest | EasyWMI/EasyWMI/WMIProcessor.cs:165-186 | the result is Execute of the fields; the task is replaced by the built command line exactly when the request is valid and non-null |
| WmiOutput.RenamedKey | EasyWMI/EasyWMI/WMIData.cs:193 | a repeated name is renamed to the name, a dash and the decimal digits of the number of stored keys that start with the name |
| WmiOutput.AddLine | EasyWMI/EasyWMI/WMIData.cs:176-198 | an empty line is skipped. A non-empty line without '=' throws IndexOutOfRangeException, and exactly those do. Other failures are duplicate keys. Entries already stored are kept, at most one is appended, and uniqueness is kept |
| WmiOutput.SeparatorSplits | EasyWMI/EasyWMI/WMIData.cs:186-189 | a line splits into two or more pieces exactly when it holds '=' |
| WmiOutput.AddLineClean | EasyWMI/EasyWMI/WMIData.cs:189-196 | a stored key and value are non-empty and hold neither '=' nor a line break |
| WmiOutput.ParseLines | EasyWMI/EasyWMI/WMIData.cs:172-199 | the lines in order until the first exception; success means every line was empty or held '='; keys stay unique |
| WmiOutput.Parse | EasyWMI/EasyWMI/WMIData.cs:168-202 | the parsed dictionary has unique keys (ignoring case), no more entries than lines, and fails only with the two exceptions above |
| WmiOutput.ParseClean | EasyWMI/EasyWMI/WMIData.cs:168-202 | every parsed key and value is non-empty, without '=' or line breaks |
| WmiOutput.ParseNoSeparator | EasyWMI/EasyWMI/WMIData.cs:186-189 | any non-empty line without '=' makes the whole parse fail |
| WmiOutput.AddLineNew | EasyWMI/EasyWMI/WMIData.cs:186-196 | a Property=Value line with a new property appends it, and the property then finds its value |
| WmiOutput.AddLineExtraSeparator | EasyWMI/EasyWMI/WMIData.cs:186-196 | text after a second '=' is dropped |
| WmiOutput.AddLineSkipsEmptyParts | EasyWMI/EasyWMI/WMIData.cs:189-190 | a line with an empty property or value is skipped |
| WmiOutput.AddLineRepeated | EasyWMI/EasyWMI/WMIData.cs:191-196 | a property already present is added under its renamed key, and the first value stays |
| WmiOutput.ParseSingleProperty | EasyWMITest/EasyWMI/WMIDataTests.cs:19-20 | one Name=Value line with its terminator parses to exactly that entry |
| WmiOutput.ParseTwoLines | EasyWMI/EasyWMI/WMIData.cs:172-199 | two lines are the second added to the result of the first |
| WmiOutput.ParseRepeatedProperty | EasyWMI/EasyWMI/WMIData.cs:191-196 | a property listed twice stores its second value under name-1 |
| WmiOutput.ParseRenameCollision | EasyWMI/EasyWMI/WMIData.cs:191-196 | Name, Name-2, Name: the renamed key is already present and Dictionary.Add throws |
| WmiOutput.ParseRenameIgnoresCase | EasyWMI/EasyWMI/WMIData.cs:191-196 | "name" then "Name" stores the second under "Name-0": presence ignores case, the count does not |
| WmiOutput.ParseWmiOutput | EasyWMI/EasyWMI/WMIData.cs:168-202 | the read loop returns the dictionary Parse describes, or its exception |
| WmiFilter.ParseFilter | EasyWMI/EasyWMI/WMIData.cs:209-220 | no names exactly for the empty filter; the names joined with commas give the filter back; no name holds a comma |
| WmiFilter.ParseFilterIsSplit | EasyWMI/EasyWMI/WMIData.cs:213-217 | the no-comma shortcut agrees with splitting |
| WmiFilter.ParseFilterKeepsSpaces | EasyWMI/EasyWMI/WMIData.cs:217-218 | names are returned untrimmed |
| WmiFilter.UniqueNew | EasyWMI/EasyWMI/WMIData.cs:234-239 | a name is kept exactly when it is in the filter and not a stored key; kept names are distinct |
| WmiFilter.UniqueNewKeepsFresh | EasyWMI/EasyWMI/WMIData.cs:234-239 | distinct, unstored names are all kept in order |
| WmiFilter.DedupFilter | EasyWMI/EasyWMI/WMIData.cs:228-257 | without stored properties the filter is unchanged; otherwise it is the kept names joined with commas |
| WmiFilter.DedupFilterParses | EasyWMI/EasyWMI/WMIData.cs:228-257 | the deduplicated filter parses back into the kept names, unless the only kept name is empty, in which case the filter is empty |
| WmiFilter.DedupFilterIdempotent | EasyWMI/EasyWMI/WMIData.cs:228-257 | deduplicating twice against the same store is deduplicating once |
| WmiFilter.DedupFilterExample | EasyWMITest/EasyWMI/WMIDataTests.cs:41-49 | with name and vendor stored, "name,vendor,description" leaves "description", or "" once description is stored |
| WmiData.StoredPropertyFound | EasyWMI/EasyWMI/WMIData.cs:44 | under the store invariant, every stored property of an alias is found by its name in any case, with its stored value |
| WmiData.Fetch | EasyWMI/EasyWMI/WMIData.cs:107-108 | a processor's parsed output has unique keys; NONE fails with the missing-argument exception; a crashed run fails |
| WmiData.RequestAliases | EasyWMI/EasyWMI/WMIData.cs:99-103 | the set of aliases the requests name |
| WmiData.LoadDefaults | EasyWMI/EasyWMI/WMIData.cs:105-109 | stored aliases are kept, only requested aliases are added, all of them on success, and keys stay unique |
| WmiData.LoadDefaultsStep | EasyWMI/EasyWMI/WMIData.cs:107-108 | one request: its exception, a duplicate-alias exception, or its result stored before the rest |
| WmiData.Bootstrap | EasyWMI/EasyWMI/WMIData.cs:94-112 | GetDefault sets the flag. Once the flag is set it does nothing. It keeps stored aliases and adds at most csproduct and os, both on success |
| WmiData.BootstrapIdempotent | EasyWMI/EasyWMI/WMIData.cs:96-97 | a second GetDefault does nothing |
| WmiData.BootstrapLoadsDefaults | EasyWMITest/EasyWMI/WMIDataTests.cs:26-34 | on an empty store with both queries succeeding, exactly the two results are stored |
| WmiData.MergeEntry | EasyWMI/EasyWMI/WMIData.cs:137-141 | the fetched key finds its value; other keys are unchanged; stored keys keep their slots; uniqueness is kept |
| WmiData.Merge | EasyWMI/EasyWMI/WMIData.cs:134-142 | stored keys keep their slots; keys not fetched keep their values; uniqueness is kept |
| WmiData.MergeUpdates | EasyWMI/EasyWMI/WMIData.cs:134-142 | after the merge every fetched key finds its fetched value |
| WmiData.StoreFetched | EasyWMI/EasyWMI/WMIData.cs:132-148 | the alias is merged into or added; no other alias changes; uniqueness is kept |
| WmiData.StoreFetchedUpdates | EasyWMI/EasyWMI/WMIData.cs:132-148 | every fetched entry is found under the alias afterwards |
| WmiData.FetchInto | EasyWMI/EasyWMI/WMIData.cs:128-148 | success stores the alias; failure changes nothing; NONE fails with the missing-argument exception; other aliases are untouched |
| WmiData.RequestData | EasyWMI/EasyWMI/WMIData.cs:119-149 | null is a no-op. Any other request leaves the defaults flag set and keeps the store invariant. On a populated store, other aliases are untouched. Success stores the alias. NONE always fails, and on a populated store it fails without change |
| WmiData.RequestDataMerges | EasyWMITest/EasyWMI/WMIDataTests.cs:56-57 | a successful GetData stores the merge, every fetched property is found with its value, and stored keys keep their order |
| WmiData.RequestDataFailureKeepsStore | EasyWMI/EasyWMI/WMIData.cs:128-148 | on a populated store, a failed query reports the query's exception and leaves the store as it was |
| WmiData.Store.Local | EasyWMI/EasyWMI/WMIData.cs:64-71 | an empty, valid store for the local machine, local execution, defaults not requested |
| WmiData.Store.ForNode | EasyWMI/EasyWMI/WMIData.cs:79-87 | an empty, valid store with the given node and switch |
| WmiData.Store.InitializeProperties | EasyWMI/EasyWMI/WMIData.cs:157-161 | an empty store whose defaults are not requested |
| WmiData.Store.Request | EasyWMI/EasyWMI/WMIData.cs:106-108 | a processor's parsed output is what Fetch describes |
| WmiData.Store.GetDefault | EasyWMI/EasyWMI/WMIData.cs:94-112 | the new state and outcome are Bootstrap of the old state; the invariant is kept |
| WmiData.Store.LoadRequests | EasyWMI/EasyWMI/WMIData.cs:105-109 | the loop over the requests ends in the state LoadDefaults describes |
| WmiData.KeepNew | EasyWMI/EasyWMI/WMIData.cs:234-239 | the loop keeps exactly the names UniqueNew describes |
| WmiData.JoinFilter | EasyWMI/EasyWMI/WMIData.cs:249-254 | the loop builds the comma-joined names |
| WmiData.Store.DeduplicateFilter | EasyWMI/EasyWMI/WMIData.cs:228-257 | the loops compute DedupFilter of the current store |
| WmiData.Store.GetData | EasyWMI/EasyWMI/WMIData.cs:119-149 | the new state and outcome are RequestData of the old state; the invariant is kept |
| WmiData.Store.FetchRequest | EasyWMI/EasyWMI/WMIData.cs:128-148 | the new state and outcome are FetchInto of the old state |
| WmiData.Store.StoreResult | EasyWMI/EasyWMI/WMIData.cs:132-148 | the store becomes StoreFetched of the old store |
| WmiData.Store.MergeInto | EasyWMI/EasyWMI/WMIData.cs:134-142 | the entry-by-entry loop leaves the alias's dictionary equal to Merge and every other alias unchanged |

## Left out

- Process plumbing is not modelled: `GetTask`, `GetTaskFileName`, `SHELL_PATH`, `SHELL_COMMAND`, the `ProcessStartInfo` flags, `Start`/`WaitForExit` and the stream readers. The run is the parameter `wmic`, and `Crashed` stands for any exception they throw.
- `Environment.MachineName` and `Environment.NewLine` are a parameter and the constant `"\r\n"`; the `AssertShellPath` test depends on the Windows directory layout.
- `Parallel.ForEach` runs sequentially in the model, in list order. The fan-outs in `GetDefault`, `GetData` and `DeduplicateFilter` race on non-thread-safe collections, and interleavings are not modelled. An exception escapes as `AggregateException`; the model keeps the inner exception.
- WmiData.LoadDefaults: stops at the first failing default request. With the parallel loop the other request may still have been stored when the exception surfaces.
- WmiData.Store.DeduplicateFilter: the kept names are in filter order. With the parallel loop their order, and whether a repeated name is kept twice, depends on the schedule.
- Strings are never null in the model. A null filter or null output string is not represented; a null `Alias` is `None`.
- Text.EqualsIgnoreCase: folds ASCII letters only. `OrdinalIgnoreCase` also folds non-ASCII letters.
- Text.StartsWith: ordinal. The source's `String.StartsWith(string)` compares with the current culture.
- The `WMIData` constructors with `getDefault = true` are modelled as the constructor followed by `GetDefault`, which a caller of `Store.Local`/`Store.ForNode` invokes.
- The `Properties` getter and the `Request`/`Filter`/`NodeName`/`RemoteExecute` getters are field reads.
- The order in which the outer `Dictionary<Alias, ...>` enumerates aliases is not modelled: it is a `map`.
- `String.GetHashCode`, which `GetHashCode` calls, is a parameter of `HashCode`, because the runtime defines its values.
- The `AssertParseWMIOutput`/`AssertDeduplicateFilter`/`AssertArguments` debug hooks are the modelled methods themselves.
- `EasyWMIDemo/Program.cs` is not part of this model.
