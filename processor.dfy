/** WMIProcessor.cs: one wmic query. A processor holds an alias, a
    property filter, a node name and a remote switch; ExecuteRequest builds
    the wmic command line from them, runs it through cmd.exe and returns
    the trimmed output. The process itself is the parameter `wmic`, a
    function from the argument string to what the run produced. */
module WmiProcessor {
  import opened Results
  import opened Text
  import opened WmiAlias

  const WmiCommand := "wmic"
  const WmiGet := "get"
  const WmiFormat := "/format:list"

  /** Environment.NewLine on Windows. */
  const NewLine := "\r\n"

  /** What a run of cmd.exe produced: both redirected streams read to the
      end, or an exception from Process.Start or WaitForExit. */
  datatype Run = Completed(stdout: string, stderr: string) | Crashed

  // ---------------------------------------------------------------------
  // The command line
  // ---------------------------------------------------------------------

  /** The words of the wmic command line, in order: the /C switch of
      cmd.exe, the wmic command, the /node: switch when running remotely,
      the alias unless it is empty, the get verb, the filter unless it is
      empty, and the list format switch. */
  function ArgumentWords(request: Alias, filter: string, remote: bool, nodeName: string): (ws: seq<string>)
    ensures 4 <= |ws| <= 7
    ensures ws[0] == "/C" && ws[1] == WmiCommand && ws[|ws| - 1] == WmiFormat
    ensures forall i :: 0 <= i < |ws| ==> ws[i] != []
    ensures (request.value in ws) <==> request.value != []
  {
    ["/C"] + ([WmiCommand] + (NodeWords(remote, nodeName) + QueryWords(request, filter)))
  }

  /** The /node: switch, when running remotely. */
  function NodeWords(remote: bool, nodeName: string): (ws: seq<string>)
    ensures remote <==> ws == ["/node:" + nodeName]
    ensures !remote <==> ws == []
  {
    if remote then ["/node:" + nodeName] else []
  }

  /** The words after the switches: alias, get verb, filter, format. */
  function QueryWords(request: Alias, filter: string): (ws: seq<string>)
    ensures 2 <= |ws| <= 4 && ws[|ws| - 1] == WmiFormat
  {
    Optional(request.value) + ([WmiGet] + (Optional(filter) + [WmiFormat]))
  }

  /** A word, or nothing when it is empty. */
  function Optional(word: string): (ws: seq<string>)
    ensures ws == [] <==> word == []
    ensures ws != [] ==> ws == [word]
  {
    if word == [] then [] else [word]
  }

  /** The argument string: the words separated by single spaces. */
  function CommandLine(request: Alias, filter: string, remote: bool, nodeName: string): (s: string)
    ensures ' ' !in request.value && ' ' !in filter && (remote ==> ' ' !in nodeName) ==>
      Split(s, ' ') == ArgumentWords(request, filter, remote, nodeName)
  {
    var ws := ArgumentWords(request, filter, remote, nodeName);
    if ' ' !in request.value && ' ' !in filter && (remote ==> ' ' !in nodeName) then
      WordsWithoutSpaces(request, filter, remote, nodeName);
      SplitJoin(ws, ' ');
      Join(ws, ' ')
    else
      Join(ws, ' ')
  }

  /** When no field holds a space, no word of the command line does. */
  lemma WordsWithoutSpaces(request: Alias, filter: string, remote: bool, nodeName: string)
    requires ' ' !in request.value && ' ' !in filter
    requires remote ==> ' ' !in nodeName
    ensures forall i :: 0 <= i < |ArgumentWords(request, filter, remote, nodeName)| ==>
      ' ' !in ArgumentWords(request, filter, remote, nodeName)[i]
  {
    var ws := ArgumentWords(request, filter, remote, nodeName);
    forall i | 0 <= i < |ws| ensures ' ' !in ws[i] {
      if remote && i == 2 {
        assert ws[2] == "/node:" + nodeName;
      }
    }
  }

  /** What the /node: switch adds to the command line. */
  function NodeSwitch(remote: bool, nodeName: string): string {
    if remote then "/node:" + nodeName + " " else ""
  }

  /** A word followed by a space, or nothing when it is empty. */
  function Spaced(word: string): string {
    word + (if |word| == 0 then "" else " ")
  }

  lemma JoinCons(p: string, rest: seq<string>)
    requires |rest| >= 1
    ensures Join([p] + rest, ' ') == p + " " + Join(rest, ' ')
  {
    assert ([p] + rest)[1..] == rest;
  }

  lemma JoinOptional(word: string, rest: seq<string>)
    requires |rest| >= 1
    ensures Join(Optional(word) + rest, ' ') == Spaced(word) + Join(rest, ' ')
  {
    if word == [] {
      assert Optional(word) + rest == rest;
    } else {
      JoinCons(word, rest);
    }
  }

  /** The query words joined: alias, get verb, filter and format. */
  lemma JoinQuery(request: Alias, filter: string)
    ensures Join(QueryWords(request, filter), ' ')
      == Spaced(request.value) + ("get " + (Spaced(filter) + WmiFormat))
  {
    var t1 := Optional(filter) + [WmiFormat];
    var t2 := [WmiGet] + t1;
    JoinOptional(filter, [WmiFormat]);
    JoinCons(WmiGet, t1);
    assert WmiGet + " " == "get ";
    JoinOptional(request.value, t2);
  }

  /** The /node: switch joined in front of the rest of the words. */
  lemma JoinNode(remote: bool, nodeName: string, rest: seq<string>)
    requires |rest| >= 1
    ensures Join(NodeWords(remote, nodeName) + rest, ' ') == NodeSwitch(remote, nodeName) + Join(rest, ' ')
  {
    if remote {
      JoinCons("/node:" + nodeName, rest);
    } else {
      assert NodeWords(remote, nodeName) + rest == rest;
    }
  }

  /** The command line spelled out piece by piece, in the order
      GetTaskArguments appends them. */
  lemma CommandLinePieces(request: Alias, filter: string, remote: bool, nodeName: string)
    ensures CommandLine(request, filter, remote, nodeName)
      == "/C wmic " + (NodeSwitch(remote, nodeName) + (Spaced(request.value) + ("get " + (Spaced(filter) + WmiFormat))))
  {
    var q := QueryWords(request, filter);
    var t := NodeWords(remote, nodeName) + q;
    JoinQuery(request, filter);
    JoinNode(remote, nodeName, q);
    JoinCons(WmiCommand, t);
    JoinCons("/C", [WmiCommand] + t);
    var j := Join(t, ' ');
    ConcatAssoc("/C" + " ", WmiCommand + " ", j);
    ConcatAssoc(WmiCommand, " ", j);
    assert "/C" + " " + (WmiCommand + " ") == "/C wmic ";
  }

  /** The remote switch only inserts "/node:<name> " after "/C wmic ";
      the node name is not used otherwise. */
  lemma RemoteInsertsNode(request: Alias, filter: string, nodeName: string, otherNode: string)
    ensures var local := CommandLine(request, filter, false, otherNode);
      |local| >= 8 && local[..8] == "/C wmic "
      && CommandLine(request, filter, true, nodeName) == "/C wmic " + ("/node:" + nodeName + " " + local[8..])
  {
    var rest := Spaced(request.value) + ("get " + (Spaced(filter) + WmiFormat));
    CommandLinePieces(request, filter, false, otherNode);
    CommandLinePieces(request, filter, true, nodeName);
    var local := CommandLine(request, filter, false, otherNode);
    assert local == "/C wmic " + rest;
    assert local[8..] == rest;
  }

  /** The query part of the unit tests' command lines. */
  lemma OsFilterQuery()
    ensures Spaced(OPERATING_SYSTEM.value) + ("get " + (Spaced("filter") + WmiFormat)) == "os get filter /format:list"
  {
    assert Spaced("filter") == "filter ";
    assert Spaced("os") == "os ";
    OsFilterText();
  }

  lemma OsFilterText()
    ensures "os " + ("get " + ("filter " + WmiFormat)) == "os get filter /format:list"
  {
  }

  lemma LocalArgumentsText()
    ensures "/C wmic " + ("" + "os get filter /format:list") == "/C wmic os get filter /format:list"
  {
  }

  lemma RemoteArgumentsText()
    ensures "/C wmic " + ("/node:" + "10.1.2.8" + " " + "os get filter /format:list")
         == "/C wmic /node:10.1.2.8 os get filter /format:list"
  {
  }

  /** The command line the local-arguments unit test expects. */
  lemma LocalArgumentsExample(machineName: string)
    ensures CommandLine(OPERATING_SYSTEM, "filter", false, machineName) == "/C wmic os get filter /format:list"
  {
    CommandLinePieces(OPERATING_SYSTEM, "filter", false, machineName);
    OsFilterQuery();
    LocalArgumentsText();
  }

  /** The command line the remote-arguments unit test expects. */
  lemma RemoteArgumentsExample()
    ensures CommandLine(OPERATING_SYSTEM, "filter", true, "10.1.2.8") == "/C wmic /node:10.1.2.8 os get filter /format:list"
  {
    CommandLinePieces(OPERATING_SYSTEM, "filter", true, "10.1.2.8");
    OsFilterQuery();
    RemoteArgumentsText();
  }

  // ---------------------------------------------------------------------
  // Validation, output and the whole request
  // ---------------------------------------------------------------------

  /** ValidateTask: a request is valid unless it is the NONE alias
      (compared with operator ==, so a null request passes). */
  function ValidateTask(request: Option<Alias>): (valid: bool)
    ensures valid <==> request != Some(NONE)
    ensures request.Some? ==> (valid <==> request.value.value != "")
    ensures request.None? ==> valid
  {
    !EqualOp(request, Some(NONE))
  }

  /** GetTaskOutput: standard output, a line break and standard error,
      trimmed. */
  function TaskOutput(stdout: string, stderr: string): (out: string)
    ensures out == [] <==> AllWhiteSpace(stdout) && AllWhiteSpace(stderr)
    ensures out == [] || (!IsWhiteSpace(out[0]) && !IsWhiteSpace(out[|out| - 1]))
  {
    var s := stdout + NewLine + stderr;
    assert AllWhiteSpace(s) <==> AllWhiteSpace(stdout) && AllWhiteSpace(stderr) by {
      if AllWhiteSpace(s) {
        assert forall k :: 0 <= k < |stdout| ==> s[k] == stdout[k];
        assert forall k :: 0 <= k < |stderr| ==> s[|stdout| + 2 + k] == stderr[k];
      } else if AllWhiteSpace(stdout) && AllWhiteSpace(stderr) {
        ConcatWhiteSpace(stdout, NewLine);
        ConcatWhiteSpace(stdout + NewLine, stderr);
      }
    }
    Trim(s)
  }

  /** With nothing but whitespace on standard error, the output is the
      trimmed standard output. */
  lemma TaskOutputWithoutErrors(stdout: string, stderr: string)
    requires AllWhiteSpace(stderr)
    ensures TaskOutput(stdout, stderr) == Trim(stdout)
  {
    ConcatWhiteSpace(NewLine, stderr);
    assert stdout + NewLine + stderr == stdout + (NewLine + stderr);
    TrimIgnoresTrailing(stdout, NewLine + stderr);
  }

  /** Trimming the output again changes nothing. */
  lemma TaskOutputTrimmed(stdout: string, stderr: string)
    ensures Trim(TaskOutput(stdout, stderr)) == TaskOutput(stdout, stderr)
  {
    TrimIdempotent(stdout + NewLine + stderr);
  }

  /** ExecuteRequest, as a value: ArgumentException for the NONE alias, a
      NullReferenceException for a null request (raised while the
      arguments are built), the exception of a failed run, or the trimmed
      output of the command line built from the processor's fields. */
  function Execute(request: Option<Alias>, filter: string, remote: bool, nodeName: string,
                   wmic: string -> Run): (r: Result<string>)
    ensures r == Fail(MissingRequest) <==> request == Some(NONE)
    ensures request.None? ==> r == Fail(NullReference)
    ensures request.Some? && request != Some(NONE) ==>
      (r.Ok? <==> wmic(CommandLine(request.value, filter, remote, nodeName)).Completed?)
    ensures r.Fail? ==> r.error in {MissingRequest, NullReference, ProcessFailure}
    ensures r.Ok? ==> r.value == [] || (!IsWhiteSpace(r.value[0]) && !IsWhiteSpace(r.value[|r.value| - 1]))
  {
    if !ValidateTask(request) then Fail(MissingRequest)
    else if request.None? then Fail(NullReference)
    else
      match wmic(CommandLine(request.value, filter, remote, nodeName))
      case Crashed => Fail(ProcessFailure)
      case Completed(stdout, stderr) => Ok(TaskOutput(stdout, stderr))
  }

  /** A run whose standard output is one line padded with whitespace,
      and whose standard error is blank, yields exactly that line (as the
      unit test for the os caption expects). */
  lemma ExecutePaddedLine(request: Alias, filter: string, remote: bool, nodeName: string,
                          wmic: string -> Run, pre: string, line: string, post: string, stderr: string)
    requires request != NONE
    requires wmic(CommandLine(request, filter, remote, nodeName)) == Completed(pre + line + post, stderr)
    requires AllWhiteSpace(pre) && AllWhiteSpace(post) && AllWhiteSpace(stderr)
    requires line != [] && !IsWhiteSpace(line[0]) && !IsWhiteSpace(line[|line| - 1])
    ensures Execute(Some(request), filter, remote, nodeName, wmic) == Ok(line)
  {
    TaskOutputWithoutErrors(pre + line + post, stderr);
    TrimPadded(pre, line, post);
  }

  // ---------------------------------------------------------------------
  // The WMIProcessor object
  // ---------------------------------------------------------------------

  class Processor {
    var request: Option<Alias>
    var filter: string
    var nodeName: string
    var processRemotely: bool
    /** The argument string of the last cmd.exe process built, if any. */
    var task: Option<string>

    /** The parameterless constructor: the NONE alias, no filter, the
        local machine, local execution, no task. */
    constructor Default(machineName: string)
      ensures request == Some(NONE) && filter == "" && nodeName == machineName
      ensures !processRemotely && task == None
    {
      request := Some(NONE);
      filter := "";
      nodeName := machineName;
      processRemotely := false;
      task := None;
    }

    /** The constructor taking a request, a filter and the remote switch;
        the node is always the local machine's name. */
    constructor WithRequest(request: Option<Alias>, filter: string, remote: bool, machineName: string)
      ensures this.request == request && this.filter == filter && nodeName == machineName
      ensures processRemotely == remote && task == None
    {
      this.request := request;
      this.filter := filter;
      nodeName := machineName;
      processRemotely := remote;
      task := None;
    }

    /** The constructor taking a node name as well. */
    constructor ForNode(nodeName: string, request: Option<Alias>, filter: string, remote: bool)
      ensures this.request == request && this.filter == filter && this.nodeName == nodeName
      ensures processRemotely == remote && task == None
    {
      this.request := request;
      this.filter := filter;
      this.nodeName := nodeName;
      processRemotely := remote;
      task := None;
    }

    /** The NodeName setter. */
    method SetNodeName(value: string)
      modifies this`nodeName
      ensures nodeName == value
    {
      nodeName := value;
    }

    /** The Request setter. */
    method SetRequest(value: Option<Alias>)
      modifies this`request
      ensures request == value
    {
      request := value;
    }

    /** The Filter setter. */
    method SetFilter(value: string)
      modifies this`filter
      ensures filter == value
    {
      filter := value;
    }

    /** The RemoteExecute setter. */
    method SetRemoteExecute(value: bool)
      modifies this`processRemotely
      ensures processRemotely == value
    {
      processRemotely := value;
    }

    /** GetTaskArguments: appends the pieces of the command line one by
        one; reading the length of a null request's name throws. */
    method GetTaskArguments() returns (r: Result<string>)
      ensures request.None? ==> r == Fail(NullReference)
      ensures request.Some? ==> r == Ok(CommandLine(request.value, filter, processRemotely, nodeName))
    {
      var sb := "/C ";
      sb := sb + WmiCommand;
      sb := sb + " ";
      ghost var a := sb;
      assert a == "/C wmic ";
      sb := sb + (if processRemotely then "/node:" + nodeName + " " else "");
      ghost var n := NodeSwitch(processRemotely, nodeName);
      sb := sb + (if request.Some? then request.value.ToString() else "");
      if request.None? {
        return Fail(NullReference);
      }
      sb := sb + (if |request.value.value| == 0 then "" else " ");
      ghost var sa := Spaced(request.value.value);
      ConcatAssoc(a + n, request.value.value, if |request.value.value| == 0 then "" else " ");
      assert sb == a + n + sa;
      sb := sb + WmiGet;
      sb := sb + " ";
      ConcatAssoc(a + n + sa, WmiGet, " ");
      assert WmiGet + " " == "get ";
      sb := sb + filter;
      sb := sb + (if |filter| == 0 then "" else " ");
      ghost var sf := Spaced(filter);
      ConcatAssoc(a + n + sa + "get ", filter, if |filter| == 0 then "" else " ");
      sb := sb + WmiFormat;
      ghost var w := WmiFormat;
      assert sb == a + n + sa + "get " + sf + w;
      ConcatAssoc(a + n + sa + "get ", sf, w);
      ConcatAssoc(a + n + sa, "get ", sf + w);
      ConcatAssoc(a + n, sa, "get " + (sf + w));
      ConcatAssoc(a, n, sa + ("get " + (sf + w)));
      CommandLinePieces(request.value, filter, processRemotely, nodeName);
      return Ok(sb);
    }

    /** ExecuteRequest: validates, builds the task (remembering it), runs
        it and returns its trimmed output, or the exception that ended it. */
    method ExecuteRequest(wmic: string -> Run) returns (r: Result<string>)
      modifies this`task
      ensures r == Execute(request, filter, processRemotely, nodeName, wmic)
      ensures task == (if request.Some? && request != Some(NONE)
                       then Some(CommandLine(request.value, filter, processRemotely, nodeName))
                       else old(task))
    {
      if ValidateTask(request) {
        var arguments := GetTaskArguments();
        if arguments.Fail? {
          return Fail(arguments.error);
        }
        task := Some(arguments.value);
        var run := wmic(arguments.value);
        if run.Crashed? {
          return Fail(ProcessFailure);
        }
        return Ok(TaskOutput(run.stdout, run.stderr));
      }
      return Fail(MissingRequest);
    }
  }

  /** The remote-arguments unit test: a processor for node 10.1.2.8,
      switched to remote execution afterwards. */
  method RemoteProcessorExample() returns (r: Result<string>)
    ensures r == Ok("/C wmic /node:10.1.2.8 os get filter /format:list")
  {
    var p := new Processor.ForNode("10.1.2.8", Some(OPERATING_SYSTEM), "filter", false);
    p.SetRemoteExecute(true);
    r := p.GetTaskArguments();
    RemoteArgumentsExample();
  }
}
