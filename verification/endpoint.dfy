/** The endpoint converter: reads the Azure OpenAI endpoint from a `.env`
    text, leaves an Azure AI Foundry project endpoint alone, turns a
    `cognitiveservices` endpoint into the Foundry form for a project, and
    rewrites the `.env` text. The file and the typed project name are
    parameters. */
module Endpoint {
  import opened Wrappers
  import opened Strings

  const KeyName := "AZURE_OPENAI_ENDPOINT"
  const EndpointKey := KeyName + "="
  const FoundryMarker := "/api/projects/"
  const OpenAiMarker := ".cognitiveservices.azure.com"
  const FoundryHost := ".services.ai.azure.com"

  /** A line that, stripped, starts with `AZURE_OPENAI_ENDPOINT=`. */
  predicate IsEndpointLine(line: string) {
    IsPrefix(EndpointKey, Strip(line))
  }

  /** `line.split('=', 1)[1].strip()`. */
  function LineValue(line: string): string {
    match After(line, "=")
    case Some(v) => Strip(v)
    case None => ""
  }

  /** The lines of a text as the file iterator yields them (without their
      newline, which `strip` drops anyway). */
  function Lines(content: string): (r: seq<string>)
    ensures |r| >= 1
  {
    SplitOn(content, "\n")
  }

  /** The index of the first line from `from` on that satisfies `p`. */
  function FirstFrom(lines: seq<string>, p: string -> bool, from: nat): (r: Option<nat>)
    decreases |lines| - from
    ensures r.Some? ==> from <= r.value < |lines| && p(lines[r.value])
    ensures r.Some? ==> forall j :: from <= j < r.value ==> !p(lines[j])
    ensures r.None? ==> forall j :: from <= j < |lines| ==> !p(lines[j])
  {
    if from >= |lines| then None
    else if p(lines[from]) then Some(from)
    else FirstFrom(lines, p, from + 1)
  }

  /** The index of the first endpoint line. */
  function FirstEndpointLine(lines: seq<string>): (r: Option<nat>)
    ensures r.Some? ==> r.value < |lines| && IsEndpointLine(lines[r.value])
    ensures r.Some? ==> forall j :: 0 <= j < r.value ==> !IsEndpointLine(lines[j])
    ensures r.None? ==> forall j :: 0 <= j < |lines| ==> !IsEndpointLine(lines[j])
  {
    FirstFrom(lines, IsEndpointLine, 0)
  }

  /** The endpoint the loop reads: the value of the first endpoint line,
      whatever follows. */
  function FindEndpoint(lines: seq<string>): Option<string> {
    match FirstEndpointLine(lines)
    case Some(i) => Some(LineValue(lines[i]))
    case None => None
  }

  /** `endpoint.split('//')[1].split('.')[0]`: the text after the first
      `//`, up to the next `//` and then to the first dot; `None` where the
      first split leaves no second piece and the indexing raises. */
  function ResourceName(endpoint: string): (r: Option<string>)
    ensures r.Some? <==> Contains(endpoint, "//")
  {
    match After(endpoint, "//")
    case Some(rest) => Some(Before(Before(rest, "//"), "."))
    case None => None
  }

  function FoundryEndpoint(resource: string, project: string): string {
    "https://" + resource + FoundryHost + FoundryMarker + project
  }

  /** What the converter decides for a `.env` text and a typed project
      name. `Convert` carries the index of the endpoint line. */
  datatype Decision =
    | NoEnvFile
    | EndpointMissing
    | AlreadyFoundry(endpoint: string)
    | NoSchemeSeparator(endpoint: string)
    | ProjectRequired(endpoint: string, resource: string)
    | Convert(line: nat, endpoint: string, resource: string, newEndpoint: string)
    | Unrecognized(endpoint: string)

  /** The checks on the endpoint read from line `i`. A missing `//` makes
      the resource split raise; the model names that outcome. */
  function Judge(i: nat, endpoint: string, projectInput: string): (d: Decision)
    ensures d.Convert? ==> d.line == i && d.endpoint == endpoint
  {
    if endpoint == "" then EndpointMissing
    else if Contains(endpoint, FoundryMarker) then AlreadyFoundry(endpoint)
    else if Contains(endpoint, OpenAiMarker) then
      match ResourceName(endpoint)
      case None => NoSchemeSeparator(endpoint)
      case Some(resource) =>
        var project := Strip(projectInput);
        if project == "" then ProjectRequired(endpoint, resource)
        else Convert(i, endpoint, resource, FoundryEndpoint(resource, project))
    else Unrecognized(endpoint)
  }

  /** The steps of `convert_endpoint_format` up to the rewrite. */
  function Decide(envFile: Option<string>, projectInput: string): (d: Decision)
    ensures envFile.Some? && d.Convert? ==>
      d.line < |Lines(envFile.value)| && IsEndpointLine(Lines(envFile.value)[d.line])
  {
    match envFile
    case None => NoEnvFile
    case Some(content) =>
      var lines := Lines(content);
      match FirstEndpointLine(lines)
      case None => EndpointMissing
      case Some(i) => Judge(i, LineValue(lines[i]), projectInput)
  }

  /** The converter's return value. */
  predicate Succeeded(d: Decision) {
    d.AlreadyFoundry? || d.Convert?
  }

  /** The converter succeeds exactly when the first endpoint line holds a
      non-empty endpoint that is already a project endpoint, or that is a
      `cognitiveservices` endpoint with a `//` and a project name was
      typed. A project endpoint is recognised before any conversion. */
  lemma DecideSpec(content: string, projectInput: string)
    ensures var d := Decide(Some(content), projectInput);
      var found := FindEndpoint(Lines(content));
      && (Succeeded(d) <==>
            && found.Some? && found.value != ""
            && (|| Contains(found.value, FoundryMarker)
                || (Contains(found.value, OpenAiMarker) && Contains(found.value, "//") && Strip(projectInput) != "")))
      && (found.Some? && found.value != "" && Contains(found.value, FoundryMarker) ==> d == AlreadyFoundry(found.value))
      && (d.Convert? ==> d.endpoint == found.value)
  {
  }

  /** A converted endpoint is a project endpoint on the services host of
      the same resource, for the typed project stripped, and the resource
      holds no dot. */
  lemma ConvertShape(i: nat, endpoint: string, projectInput: string)
    ensures Judge(i, endpoint, projectInput).Convert? ==>
      var d := Judge(i, endpoint, projectInput);
      && d.newEndpoint == "https://" + d.resource + FoundryHost + FoundryMarker + Strip(projectInput)
      && Strip(projectInput) != ""
      && ResourceName(endpoint) == Some(d.resource)
      && (forall k :: 0 <= k < |d.resource| ==> d.resource[k] != '.')
      && Contains(d.newEndpoint, FoundryMarker)
  {
    var d := Judge(i, endpoint, projectInput);
    if d.Convert? {
      BeforeAvoids(Before(After(endpoint, "//").value, "//"), '.');
      ContainsMiddle("https://" + d.resource + FoundryHost, FoundryMarker, Strip(projectInput));
    }
  }

  /** The text before the first `c` holds no `c`. */
  lemma BeforeAvoids(s: string, c: char)
    ensures forall i :: 0 <= i < |Before(s, [c])| ==> Before(s, [c])[i] != c
  {
    var b := Before(s, [c]);
    forall i | 0 <= i < |b| ensures b[i] != c {
      if b[i] == c {
        assert ContainsAt(s, [c], i);
      }
    }
  }

  // ---------------------------------------------------------------------------
  // The rewrite as written

  /** `env_content.replace(KEY=<old>, KEY=<new>)`. */
  function ReplaceEndpoint(content: string, previous: string, replacement: string): string {
    ReplaceAll(content, EndpointKey + previous, EndpointKey + replacement)
  }

  /** The `.env` text after a run, as the program writes it: `None` when
      there is no file, the text unchanged unless the endpoint is
      converted. */
  function FileAfterAsWritten(envFile: Option<string>, projectInput: string): Option<string> {
    match envFile
    case None => None
    case Some(content) =>
      var d := Decide(envFile, projectInput);
      Some(if d.Convert? then ReplaceEndpoint(content, d.endpoint, d.newEndpoint) else content)
  }

  /** The replacement swaps every occurrence of `KEY=<old>` and keeps every
      piece of text between them. */
  lemma ReplaceEndpointSpec(content: string, previous: string, replacement: string)
    ensures ReplaceEndpoint(content, previous, replacement)
         == Join(SplitOn(content, EndpointKey + previous), EndpointKey + replacement)
    ensures (forall j :: !ContainsAt(content, EndpointKey + previous, j)) ==> ReplaceEndpoint(content, previous, replacement) == content
  {
    ReplaceIsJoinOfSplit(content, EndpointKey + previous, EndpointKey + replacement);
    if forall j :: !ContainsAt(content, EndpointKey + previous, j) {
      ReplaceAbsent(content, EndpointKey + previous, EndpointKey + replacement);
    }
  }

  /** A line with a space after `=`: the endpoint is read through the
      space, but `KEY=<endpoint>` does not occur in the text, so the text
      is written back unchanged although the conversion reports success,
      and the next run converts again. */
  lemma SpacedLineNotRewritten(endpoint: string, projectInput: string)
    requires Strip(endpoint) == endpoint && endpoint != ""
    requires !Contains(endpoint, "\n") && !Contains(endpoint, FoundryMarker)
    requires Contains(endpoint, OpenAiMarker) && Contains(endpoint, "//")
    requires Strip(projectInput) != ""
    ensures var content := EndpointKey + " " + endpoint;
      && Decide(Some(content), projectInput).Convert?
      && FileAfterAsWritten(Some(content), projectInput) == Some(content)
      && Decide(FileAfterAsWritten(Some(content), projectInput), projectInput).Convert?
  {
    var content := EndpointKey + " " + endpoint;
    SpacedLineReads(endpoint);
    SpacedLineMissesPattern(endpoint);
    ReplaceAbsent(content, EndpointKey + endpoint, EndpointKey + Decide(Some(content), projectInput).newEndpoint);
  }

  /** The spaced line is the text's only line and reads as `endpoint`. */
  lemma SpacedLineReads(endpoint: string)
    requires Strip(endpoint) == endpoint && endpoint != ""
    requires !Contains(endpoint, "\n")
    ensures Lines(EndpointKey + " " + endpoint) == [EndpointKey + " " + endpoint]
    ensures FindEndpoint(Lines(EndpointKey + " " + endpoint)) == Some(endpoint)
  {
    var line := EndpointKey + " " + endpoint;
    KeyNameAvoids();
    NoNewlineOf(endpoint);
    assert NoNewline(line) by {
      forall k | 0 <= k < |line| ensures line[k] != '\n' {
        if k > |EndpointKey| {
          assert line[k] == endpoint[k - |EndpointKey| - 1];
        }
      }
    }
    SplitAbsent(line);
    assert line == KeyName + "=" + (" " + endpoint);
    CharFirstAt(KeyName, '=', " " + endpoint);
    StripKeyLine(" " + endpoint);
    assert LineValue(line) == Strip(" " + endpoint);
    LStripSpace(endpoint);
  }

  /** `KEY=<endpoint>` does not occur in `KEY= <endpoint>`. */
  lemma SpacedLineMissesPattern(endpoint: string)
    requires Strip(endpoint) == endpoint && endpoint != ""
    ensures forall j :: !ContainsAt(EndpointKey + " " + endpoint, EndpointKey + endpoint, j)
  {
    var line := EndpointKey + " " + endpoint;
    var pat := EndpointKey + endpoint;
    assert !IsSpace(endpoint[0]);
    forall j ensures !ContainsAt(line, pat, j) {
      if 0 <= j && j + |pat| <= |line| {
        if j == 0 {
          assert line[..|pat|][|EndpointKey|] == ' ';
          assert pat[|EndpointKey|] == endpoint[0];
        } else {
          assert line[1..][0] == 'Z';
          assert pat[0] == 'A';
        }
      }
    }
  }

  // ---------------------------------------------------------------------------
  // The rewrite of the endpoint line

  /** The `.env` text after a run when the endpoint line itself is
      replaced by `KEY=<new endpoint>`. */
  function FileAfter(envFile: Option<string>, projectInput: string): Option<string> {
    match envFile
    case None => None
    case Some(content) =>
      var d := Decide(envFile, projectInput);
      Some(if d.Convert? then Join(Lines(content)[d.line := EndpointKey + d.newEndpoint], "\n") else content)
  }

  /** After a conversion the written text reads back as the new endpoint,
      so a second run finds a project endpoint and changes nothing; every
      other line is kept. */
  lemma FileAfterConverts(content: string, projectInput: string, nextInput: string)
    requires !Contains(projectInput, "\n")
    ensures Decide(Some(content), projectInput).Convert? ==>
      var d := Decide(Some(content), projectInput);
      var written := FileAfter(Some(content), projectInput).value;
      && Lines(written) == Lines(content)[d.line := EndpointKey + d.newEndpoint]
      && FindEndpoint(Lines(written)) == Some(d.newEndpoint)
      && Decide(Some(written), nextInput) == AlreadyFoundry(d.newEndpoint)
      && FileAfter(Some(written), nextInput) == Some(written)
  {
    var d := Decide(Some(content), projectInput);
    if d.Convert? {
      ConvertedLine(content, projectInput);
      LinesAvoidNewline(content);
      RewriteLine(Lines(content), d.line, d.newEndpoint);
      var written := Join(Lines(content)[d.line := EndpointKey + d.newEndpoint], "\n");
      assert FileAfter(Some(content), projectInput) == Some(written);
      SecondRun(written, d.line, d.newEndpoint, nextInput);
    }
  }

  /** A text whose first endpoint line reads as a project endpoint is left
      as it is. */
  lemma SecondRun(written: string, i: nat, endpoint: string, nextInput: string)
    requires endpoint != "" && Contains(endpoint, FoundryMarker)
    ensures FirstEndpointLine(Lines(written)) == Some(i) && LineValue(Lines(written)[i]) == endpoint ==>
      && Decide(Some(written), nextInput) == AlreadyFoundry(endpoint)
      && FileAfter(Some(written), nextInput) == Some(written)
  {
    if FirstEndpointLine(Lines(written)) == Some(i) && LineValue(Lines(written)[i]) == endpoint {
      assert Decide(Some(written), nextInput) == Judge(i, endpoint, nextInput);
    }
  }

  /** The converted endpoint line: the first endpoint line is replaced by
      one that reads as the new endpoint, a project endpoint, and holds no
      newline. */
  lemma ConvertedLine(content: string, projectInput: string)
    requires !Contains(projectInput, "\n")
    ensures Decide(Some(content), projectInput).Convert? ==>
      var d := Decide(Some(content), projectInput);
      var line := EndpointKey + d.newEndpoint;
      && FirstEndpointLine(Lines(content)) == Some(d.line)
      && IsEndpointLine(line) && LineValue(line) == d.newEndpoint && NoNewline(line)
      && d.newEndpoint != "" && Contains(d.newEndpoint, FoundryMarker)
  {
    var lines := Lines(content);
    if Decide(Some(content), projectInput).Convert? {
      var i := FirstEndpointLine(lines).value;
      assert Decide(Some(content), projectInput) == Judge(i, LineValue(lines[i]), projectInput);
      LinesAvoidNewline(content);
      JudgedLine(lines[i], i, projectInput);
    }
  }

  /** The same for an endpoint line on its own. */
  lemma JudgedLine(line: string, i: nat, projectInput: string)
    requires NoNewline(line)
    requires !Contains(projectInput, "\n")
    ensures Judge(i, LineValue(line), projectInput).Convert? ==>
      var d := Judge(i, LineValue(line), projectInput);
      var line' := EndpointKey + d.newEndpoint;
      && IsEndpointLine(line') && LineValue(line') == d.newEndpoint && NoNewline(line')
      && d.newEndpoint != "" && Contains(d.newEndpoint, FoundryMarker)
  {
    var d := Judge(i, LineValue(line), projectInput);
    if d.Convert? {
      ConvertShape(i, d.endpoint, projectInput);
      ResourceLine(line, d.resource, projectInput);
    }
  }

  /** The line built from a resource read off a newline-free line and a
      typed project name without newlines. */
  lemma ResourceLine(line: string, resource: string, projectInput: string)
    requires NoNewline(line)
    requires Strip(projectInput) != "" && !Contains(projectInput, "\n")
    ensures ResourceName(LineValue(line)) == Some(resource) ==>
      var e := FoundryEndpoint(resource, Strip(projectInput));
      && IsEndpointLine(EndpointKey + e) && LineValue(EndpointKey + e) == e && NoNewline(EndpointKey + e)
  {
    if ResourceName(LineValue(line)) == Some(resource) {
      SubstringAvoids(line, LineValue(line), resource);
      ProjectName(projectInput);
      NewEndpointLine(resource, Strip(projectInput));
    }
  }

  /** A typed project name without newlines strips to a name without
      newlines that strips to itself. */
  lemma ProjectName(projectInput: string)
    requires Strip(projectInput) != "" && !Contains(projectInput, "\n")
    ensures NoNewline(Strip(projectInput)) && Strip(Strip(projectInput)) == Strip(projectInput)
  {
    NoNewlineOf(projectInput);
    StripSubstring(projectInput);
    StripUnpaddedText(Strip(projectInput));
  }

  /** Replacing the first endpoint line of newline-free lines by
      `KEY=<endpoint>` and joining gives a text whose lines are the
      replaced ones and that reads as that endpoint. */
  lemma RewriteLine(lines: seq<string>, i: nat, endpoint: string)
    requires |lines| >= 1
    requires forall j :: 0 <= j < |lines| ==> NoNewline(lines[j])
    requires FirstEndpointLine(lines) == Some(i)
    requires IsEndpointLine(EndpointKey + endpoint) && LineValue(EndpointKey + endpoint) == endpoint
    requires NoNewline(EndpointKey + endpoint)
    ensures var lines' := lines[i := EndpointKey + endpoint];
      && Lines(Join(lines', "\n")) == lines'
      && FirstEndpointLine(lines') == Some(i)
      && FindEndpoint(lines') == Some(endpoint)
  {
    var lines' := lines[i := EndpointKey + endpoint];
    ReplacedLineFirst(lines, i, EndpointKey + endpoint);
    SplitJoin(lines');
  }

  /** A line `KEY=<new endpoint>` is an endpoint line that reads as the new
      endpoint, and holds no newline when the resource and project hold
      none. */
  lemma NewEndpointLine(resource: string, project: string)
    requires project != "" && Strip(project) == project
    requires NoNewline(resource) && NoNewline(project)
    ensures var line := EndpointKey + FoundryEndpoint(resource, project);
      && IsEndpointLine(line)
      && LineValue(line) == FoundryEndpoint(resource, project)
      && NoNewline(line)
  {
    var e := FoundryEndpoint(resource, project);
    var line := EndpointKey + e;
    KeyNameAvoids();
    assert line == KeyName + "=" + e;
    CharFirstAt(KeyName, '=', e);
    assert e[0] == 'h';
    assert e[|e| - 1] == project[|project| - 1];
    assert !IsSpace(project[|project| - 1]);
    StripUnpaddedText(e);
    StripKeyLine(e);
    FoundryEndpointNewline(resource, project);
  }

  lemma FoundryEndpointNewline(resource: string, project: string)
    requires NoNewline(resource) && NoNewline(project)
    ensures NoNewline(EndpointKey + FoundryEndpoint(resource, project))
  {
    LiteralsNewline();
    NoNewlineAppend("https://", resource);
    NoNewlineAppend("https://" + resource, FoundryHost);
    NoNewlineAppend("https://" + resource + FoundryHost, FoundryMarker);
    NoNewlineAppend("https://" + resource + FoundryHost + FoundryMarker, project);
    NoNewlineAppend(EndpointKey, FoundryEndpoint(resource, project));
  }

  /** Putting an endpoint line in place of the first one keeps it first. */
  lemma ReplacedLineFirst(lines: seq<string>, i: nat, line: string)
    requires FirstEndpointLine(lines) == Some(i)
    requires IsEndpointLine(line)
    ensures FirstEndpointLine(lines[i := line]) == Some(i)
  {
    var lines' := lines[i := line];
    assert IsEndpointLine(lines'[i]);
    assert forall j :: 0 <= j < i ==> !IsEndpointLine(lines'[j]) by {
      forall j | 0 <= j < i ensures !IsEndpointLine(lines'[j]) {
        assert lines'[j] == lines[j];
      }
    }
    FirstEndpointAt(lines', i);
  }

  /** An endpoint line with none before it is the first one. */
  lemma FirstEndpointAt(lines: seq<string>, i: nat)
    requires i < |lines| && IsEndpointLine(lines[i])
    requires forall j :: 0 <= j < i ==> !IsEndpointLine(lines[j])
    ensures FirstEndpointLine(lines) == Some(i)
  {
  }

  // ---------------------------------------------------------------------------
  // Text helpers

  predicate NoNewline(s: string) {
    forall i :: 0 <= i < |s| ==> s[i] != '\n'
  }

  lemma NoNewlineAppend(a: string, b: string)
    requires NoNewline(a) && NoNewline(b)
    ensures NoNewline(a + b)
  {
    forall k | 0 <= k < |a + b| ensures (a + b)[k] != '\n' {
      if k >= |a| {
        assert (a + b)[k] == b[k - |a|];
      }
    }
  }

  lemma NoNewlineOf(s: string)
    requires !Contains(s, "\n")
    ensures NoNewline(s)
  {
    forall i | 0 <= i < |s| ensures s[i] != '\n' {
      assert !ContainsAt(s, "\n", i);
      assert s[i..i + 1] == [s[i]];
    }
  }

  /** The endpoint and the resource come out of the endpoint line, so they
      hold no newline either. */
  lemma SubstringAvoids(line: string, endpoint: string, resource: string)
    requires NoNewline(line)
    requires endpoint == LineValue(line)
    requires ResourceName(endpoint) == Some(resource)
    ensures NoNewline(endpoint) && NoNewline(resource)
  {
    if After(line, "=").Some? {
      var v := After(line, "=").value;
      assert IsSuffix(v, line);
      assert NoNewline(v) by {
        forall i | 0 <= i < |v| ensures v[i] != '\n' {
          assert v[i] == line[|line| - |v| + i];
        }
      }
      StripSubstring(v);
    }
    var rest := After(endpoint, "//").value;
    assert NoNewline(rest) by {
      forall i | 0 <= i < |rest| ensures rest[i] != '\n' {
        assert rest[i] == endpoint[|endpoint| - |rest| + i];
      }
    }
    var b := Before(rest, "//");
    assert NoNewline(b) by {
      forall i | 0 <= i < |b| ensures b[i] != '\n' {
        assert b[i] == rest[i];
      }
    }
    assert NoNewline(resource) by {
      forall i | 0 <= i < |resource| ensures resource[i] != '\n' {
        assert resource[i] == b[i];
      }
    }
  }

  /** `strip` keeps a run of the text's own characters. */
  lemma StripSubstring(s: string)
    ensures NoNewline(s) ==> NoNewline(Strip(s))
  {
    if NoNewline(s) {
      var l := LStrip(s);
      forall i | 0 <= i < |l| ensures l[i] != '\n' {
        assert l[i] == s[|s| - |l| + i];
      }
      var r := RStrip(l);
      forall i | 0 <= i < |r| ensures r[i] != '\n' {
        assert r[i] == l[i];
      }
    }
  }

  /** Every line of a split holds no newline. */
  lemma {:induction false} LinesAvoidNewline(content: string)
    ensures forall i :: 0 <= i < |Lines(content)| ==> NoNewline(Lines(content)[i])
    decreases |content|
  {
    if |content| >= 1 && content[..1] != "\n" {
      LinesAvoidNewline(content[1..]);
      var rest := Lines(content[1..]);
      assert content[0] != '\n';
      assert Lines(content) == [[content[0]] + rest[0]] + rest[1..];
    } else if |content| >= 1 {
      LinesAvoidNewline(content[1..]);
      assert Lines(content) == [""] + Lines(content[1..]);
    }
  }

  /** Splitting a text without newlines gives the text. */
  lemma {:induction false} SplitAbsent(s: string)
    requires NoNewline(s)
    ensures SplitOn(s, "\n") == [s]
    decreases |s|
  {
    if |s| >= 1 {
      assert s[..1] != "\n" by {
        assert s[..1][0] == s[0];
      }
      SplitAbsent(s[1..]);
      assert [s[0]] + s[1..] == s;
    }
  }

  /** Splitting `a + "\n" + b` at newlines, `a` holding none, gives `a`
      and then the pieces of `b`. */
  lemma {:induction false} SplitFirstLine(a: string, b: string)
    requires NoNewline(a)
    ensures SplitOn(a + "\n" + b, "\n") == [a] + SplitOn(b, "\n")
    decreases |a|
  {
    var s := a + "\n" + b;
    if |a| == 0 {
      assert s == "\n" + b;
      assert s[..1] == "\n";
      assert s[1..] == b;
    } else {
      assert s[..1] != "\n" by {
        assert s[..1][0] == a[0];
      }
      assert s[1..] == a[1..] + "\n" + b;
      SplitFirstLine(a[1..], b);
      assert [a[0]] + a[1..] == a;
    }
  }

  /** Joining lines without newlines and splitting the result gives the
      lines back. */
  lemma {:induction false} SplitJoin(lines: seq<string>)
    requires |lines| >= 1
    requires forall i :: 0 <= i < |lines| ==> NoNewline(lines[i])
    ensures SplitOn(Join(lines, "\n"), "\n") == lines
    decreases |lines|
  {
    if |lines| == 1 {
      SplitAbsent(lines[0]);
    } else {
      JoinCons(lines[0], lines[1..], "\n");
      assert [lines[0]] + lines[1..] == lines;
      SplitFirstLine(lines[0], Join(lines[1..], "\n"));
      SplitJoin(lines[1..]);
    }
  }

  lemma LiteralsNewline()
    ensures NoNewline(EndpointKey) && NoNewline("https://")
    ensures NoNewline(FoundryHost) && NoNewline(FoundryMarker)
  {
  }

  lemma KeyNameAvoids()
    ensures forall i :: 0 <= i < |KeyName| ==> KeyName[i] != '='
    ensures forall i :: 0 <= i < |KeyName| ==> KeyName[i] != '\n'
    ensures KeyName[0] == 'A' && KeyName[1] == 'Z'
  {
  }

  /** The first `c` of `pre + [c] + rest`, `pre` holding none, is the one
      after `pre`. */
  lemma CharFirstAt(pre: string, c: char, rest: string)
    requires forall i :: 0 <= i < |pre| ==> pre[i] != c
    ensures After(pre + [c] + rest, [c]) == Some(rest)
  {
    var t := pre + [c] + rest;
    assert ContainsAt(t, [c], |pre|);
    forall j | 0 <= j < |pre| ensures !ContainsAt(t, [c], j) {
      assert t[j] == pre[j];
      assert t[j..j + 1][0] == t[j];
    }
    var r := IndexOf(t, [c]);
    assert r.Some?;
    assert r.value <= |pre|;
    assert t[|pre| + 1..] == rest;
  }

  /** A line `KEY=<v>` strips to itself when `v` ends in a non-space, and
      is an endpoint line. */
  lemma StripKeyLine(v: string)
    requires |v| > 0 ==> !IsSpace(v[|v| - 1])
    ensures IsEndpointLine(EndpointKey + v) && Strip(EndpointKey + v) == EndpointKey + v
  {
    var line := EndpointKey + v;
    KeyNameAvoids();
    assert line[0] == 'A';
    assert line[|line| - 1] != ' ' && !IsSpace(line[|line| - 1]);
    assert IsPrefix(EndpointKey, line);
  }

  lemma StripUnpaddedText(s: string)
    requires |s| > 0 && !IsSpace(s[0]) && !IsSpace(s[|s| - 1])
    ensures Strip(s) == s
  {
  }

  /** A leading space goes, a stripped text stays. */
  lemma LStripSpace(s: string)
    requires Strip(s) == s && s != ""
    ensures Strip(" " + s) == s
  {
    var t := " " + s;
    assert |t| > 0 && IsSpace(t[0]);
    assert t[1..] == s;
    assert LStrip(t) == LStrip(s);
    assert Strip(t) == RStrip(LStrip(s)) == Strip(s);
  }
}
