/**
 * The v2 TensorDock deployer (`ComfyUIDeployer` in tensordock_auto_deploy.py): escaping of
 * the CivitAI key for the setup script, choice of a location offering an RTX 4090, the
 * create payload, the readiness poll, the one-shot remote run, and the operator's
 * list-and-terminate dialogue.
 *
 * Every HTTP response, process exit code and console answer is a parameter. A sequence of
 * responses to repeated identical requests is a function from the call number (0, 1, ...)
 * to the response. Time is an integer number of seconds that only the script's sleeps
 * advance.
 */
module AutoDeploy {
  import opened Wrappers
  import opened Text
  import opened Clock

  // ---------------------------------------------------------------------------
  // The CivitAI key in the setup script
  // ---------------------------------------------------------------------------

  /** What every single quote of the key becomes: close the quote, a backslash-quote, reopen. */
  const QuoteEscape: string := "'\\''"

  /** `civitai_key.replace("'", "'\\''")`. */
  function EscapeSingleQuotes(key: string): (r: string)
    ensures '\'' !in key ==> r == key
  {
    Replace(key, '\'', QuoteEscape)
  }

  /**
   * Quote removal as a POSIX shell performs it on one word made of plain characters,
   * backslash-escaped characters and single-quoted segments; `None` for an unterminated quote.
   */
  function ShellWord(s: string): Option<string>
    decreases |s|
  {
    if s == [] then Some([])
    else if s[0] == '\'' then
      match IndexOf(s[1..], '\'')
      case None => None
      case Some(i) =>
        match ShellWord(s[i + 2..])
        case None => None
        case Some(t) => Some(s[1..i + 1] + t)
    else if s[0] == '\\' && |s| >= 2 then
      match ShellWord(s[2..])
      case None => None
      case Some(t) => Some([s[1]] + t)
    else
      match ShellWord(s[1..])
      case None => None
      case Some(t) => Some([s[0]] + t)
  }

  /** A single-quoted word without inner quotes reads back as its content, whatever follows. */
  lemma QuotedSegment(a: string, rest: string)
    requires '\'' !in a
    ensures ShellWord("'" + a + "'" + rest) ==
      match ShellWord(rest) { case None => None case Some(t) => Some(a + t) }
  {
    var s := "'" + a + "'" + rest;
    assert s[1..] == a + "'" + rest;
    assert (a + "'" + rest)[..|a|] == a;
    IndexOfAt(s[1..], '\'', |a|);
    assert s[|a| + 2..] == rest;
    assert s[1..|a| + 1] == a;
  }

  /** A backslash-escaped quote reads back as a quote. */
  lemma EscapedQuote(rest: string)
    ensures ShellWord("\\'" + rest) ==
      match ShellWord(rest) { case None => None case Some(t) => Some("'" + t) }
  {
    var s := "\\'" + rest;
    assert s[0] == '\\' && s[1] == '\'' && s[2..] == rest;
  }

  /** Escaping the key at its first quote. */
  lemma EscapeAtQuote(a: string, b: string)
    requires '\'' !in a
    ensures EscapeSingleQuotes(a + ['\''] + b) == a + QuoteEscape + EscapeSingleQuotes(b)
  {
    ReplaceAppend(a + ['\''], b, '\'', QuoteEscape);
    ReplaceAppend(a, ['\''], '\'', QuoteEscape);
    assert Replace(['\''], '\'', QuoteEscape) == QuoteEscape;
  }

  /** A key without quotes, single-quoted, reads back as itself. */
  lemma QuoteFreeRoundTrip(key: string)
    requires '\'' !in key
    ensures ShellWord("'" + EscapeSingleQuotes(key) + "'") == Some(key)
  {
    assert EscapeSingleQuotes(key) == key;
    QuotedSegment(key, "");
    assert "'" + key + "'" + "" == "'" + key + "'";
    assert ShellWord("") == Some([]);
    assert key + [] == key;
  }

  /** One quote of the key: its escaped form reads back as the quote between the two parts. */
  lemma EscapedQuoteStep(a: string, b: string)
    requires '\'' !in a
    requires ShellWord("'" + EscapeSingleQuotes(b) + "'") == Some(b)
    ensures ShellWord("'" + EscapeSingleQuotes(a + ['\''] + b) + "'") == Some(a + ['\''] + b)
  {
    var tail := "\\'" + ("'" + EscapeSingleQuotes(b) + "'");
    EscapedWordShape(a, b);
    EscapedQuote("'" + EscapeSingleQuotes(b) + "'");
    QuotedSegment(a, tail);
    assert a + ("'" + b) == a + ['\''] + b;
  }

  /** The quoted escaped key at its first quote: the part before it, then the escaped rest. */
  lemma EscapedWordShape(a: string, b: string)
    requires '\'' !in a
    ensures "'" + EscapeSingleQuotes(a + ['\''] + b) + "'" == "'" + a + "'" + ("\\'" + ("'" + EscapeSingleQuotes(b) + "'"))
  {
    EscapeAtQuote(a, b);
    assert QuoteEscape == "'" + "\\'" + "'";
  }

  /**
   * The escaped key, put between single quotes, is a shell word whose value is exactly the
   * key: the escaping makes any key safe to single-quote.
   */
  lemma {:induction false} EscapedKeyRoundTrip(key: string)
    ensures ShellWord("'" + EscapeSingleQuotes(key) + "'") == Some(key)
    decreases |key|
  {
    match IndexOf(key, '\'')
    case None =>
      QuoteFreeRoundTrip(key);
    case Some(i) =>
      var a, b := key[..i], key[i + 1..];
      assert key == a + ['\''] + b;
      EscapedKeyRoundTrip(b);
      EscapedQuoteStep(a, b);
  }

  /** The line of the generated setup script that writes the key into the `.env` file. */
  function EnvKeyLine(civitaiKey: string): (line: string)
    ensures StartsWith(line, "CIVITAI_API_KEY=")
    ensures '\'' !in civitaiKey ==> line == "CIVITAI_API_KEY=" + civitaiKey
  {
    "CIVITAI_API_KEY=" + EscapeSingleQuotes(civitaiKey)
  }

  // ---------------------------------------------------------------------------
  // Locations and GPUs (GET /api/v2/locations)
  // ---------------------------------------------------------------------------

  /** One entry of a location's `gpus` list; absent keys are `None`. */
  datatype Gpu = Gpu(name: Option<string>, maxCount: Option<int>)

  /** One entry of the `locations` list; an absent `gpus` key is the empty list. */
  datatype Location = Location(id: Option<string>, city: Option<string>, country: Option<string>, gpus: seq<Gpu>)

  function GpuName(g: Gpu): string { g.name.GetOr("") }

  function MaxCount(g: Gpu): int { g.maxCount.GetOr(0) }

  /** The test applied to each GPU: some available, and "4090" or "rtx4090" in the lower-cased name. */
  predicate IsRtx4090(g: Gpu) {
    MaxCount(g) > 0 && (Contains(Lower(GpuName(g)), "4090") || Contains(Lower(GpuName(g)), "rtx4090"))
  }

  /** The "rtx4090" alternative adds nothing: the test is "4090" in the lower-cased name. */
  lemma IsRtx4090Iff(g: Gpu)
    ensures IsRtx4090(g) <==> MaxCount(g) > 0 && Contains(Lower(GpuName(g)), "4090")
  {
    var n := Lower(GpuName(g));
    if Contains(n, "rtx4090") {
      assert "rtx4090"[3..7] == "4090";
      ContainsAt("rtx4090", "4090", 3);
      ContainsTransitive(n, "rtx4090", "4090");
    }
  }

  /** `f"{city}, {country}"` with "Unknown" for an absent part. */
  function LocationName(loc: Location): string {
    loc.city.GetOr("Unknown") + ", " + loc.country.GetOr("Unknown")
  }

  /** The position of the first qualifying GPU in a location's list. */
  function FirstRtx4090(gpus: seq<Gpu>): (r: Option<nat>)
    ensures r.Some? ==> r.value < |gpus| && IsRtx4090(gpus[r.value])
    ensures r.Some? ==> forall k :: 0 <= k < r.value ==> !IsRtx4090(gpus[k])
    ensures r.None? ==> forall k :: 0 <= k < |gpus| ==> !IsRtx4090(gpus[k])
  {
    if gpus == [] then None
    else if IsRtx4090(gpus[0]) then Some(0)
    else match FirstRtx4090(gpus[1..])
      case None => None
      case Some(i) => Some(i + 1)
  }

  /** A location the selection loop stops at: a truthy id and a qualifying GPU. */
  predicate Eligible(loc: Location) {
    Truthy(loc.id) && FirstRtx4090(loc.gpus).Some?
  }

  /** The position of the first eligible location, in response order. */
  function FirstEligible(locs: seq<Location>): (r: Option<nat>)
    ensures r.Some? ==> r.value < |locs| && Eligible(locs[r.value])
    ensures r.Some? ==> forall k :: 0 <= k < r.value ==> !Eligible(locs[k])
    ensures r.None? ==> forall k :: 0 <= k < |locs| ==> !Eligible(locs[k])
  {
    if locs == [] then None
    else if Eligible(locs[0]) then Some(0)
    else match FirstEligible(locs[1..])
      case None => None
      case Some(i) => Some(i + 1)
  }

  /** The `selected_location_id`, `selected_location_name` and `selected_gpu_model` triple. */
  datatype Selection = Selection(locationId: string, locationName: string, gpuModel: string)

  function SelectionAt(loc: Location): Selection
    requires Eligible(loc)
  {
    Selection(loc.id.value, LocationName(loc), GpuName(loc.gpus[FirstRtx4090(loc.gpus).value]))
  }

  /** What the selection loop settles on, as a function of the locations list. */
  function Select(locs: seq<Location>): (r: Option<Selection>)
    ensures r.None? <==> forall k :: 0 <= k < |locs| ==> !Eligible(locs[k])
    ensures r.Some? ==> exists k :: (0 <= k < |locs| && Eligible(locs[k]) && r.value == SelectionAt(locs[k])
      && forall m :: 0 <= m < k ==> !Eligible(locs[m]))
  {
    match FirstEligible(locs)
    case None => None
    case Some(i) => Some(SelectionAt(locs[i]))
  }

  /** The selected GPU is never one with `max_count` zero or absent. */
  lemma SelectedGpuAvailable(locs: seq<Location>)
    requires Select(locs).Some?
    ensures exists k, j :: (0 <= k < |locs| && 0 <= j < |locs[k].gpus|
      && locs[k].id == Some(Select(locs).value.locationId)
      && GpuName(locs[k].gpus[j]) == Select(locs).value.gpuModel
      && MaxCount(locs[k].gpus[j]) > 0
      && Contains(Lower(Select(locs).value.gpuModel), "4090"))
  {
    var k := FirstEligible(locs).value;
    var j := FirstRtx4090(locs[k].gpus).value;
    IsRtx4090Iff(locs[k].gpus[j]);
  }

  /**
   * The nested loop of `deploy_with_raw_api` over locations and their GPUs. A match at a
   * location whose id is falsy is recorded but does not stop the outer loop.
   */
  method SelectLocation(locations: seq<Location>) returns (sel: Option<Selection>)
    ensures sel == Select(locations)
  {
    var selectedId: Option<string> := None;
    var selectedName: Option<string> := None;
    var selectedGpu: Option<string> := None;
    var i := 0;
    while i < |locations|
      invariant 0 <= i <= |locations|
      invariant forall k :: 0 <= k < i ==> !Eligible(locations[k])
      invariant !Truthy(selectedId)
    {
      var location := locations[i];
      var gpus := location.gpus;
      ghost var found: Option<nat> := None;
      var j := 0;
      while j < |gpus|
        invariant 0 <= j <= |gpus|
        invariant forall m :: 0 <= m < j ==> !IsRtx4090(gpus[m])
        invariant found.None? && !Truthy(selectedId)
      {
        if IsRtx4090(gpus[j]) {
          selectedId := location.id;
          selectedName := Some(LocationName(location));
          selectedGpu := Some(GpuName(gpus[j]));
          found := Some(j);
          break;
        }
        j := j + 1;
      }
      if found.Some? {
        assert FirstRtx4090(gpus) == found;
        assert selectedId == location.id;
      } else {
        assert FirstRtx4090(gpus).None?;
      }
      if Truthy(selectedId) {
        assert Eligible(location) && FirstEligible(locations) == Some(i) by {
          FirstEligibleAt(locations, i);
        }
        sel := Some(Selection(selectedId.value, selectedName.value, selectedGpu.value));
        return;
      }
      i := i + 1;
    }
    sel := None;
  }

  lemma FirstEligibleAt(locs: seq<Location>, i: nat)
    requires i < |locs| && Eligible(locs[i])
    requires forall k :: 0 <= k < i ==> !Eligible(locs[k])
    ensures FirstEligible(locs) == Some(i)
  {
    var r := FirstEligible(locs);
    assert r.Some? by {
      assert !(forall k :: 0 <= k < |locs| ==> !Eligible(locs[k]));
    }
    assert r.value <= i by {
      assert !(forall k :: 0 <= k < r.value ==> !Eligible(locs[k])) || r.value <= i;
    }
    assert !(r.value < i);
  }

  // ---------------------------------------------------------------------------
  // The create request (POST /api/v2/instances)
  // ---------------------------------------------------------------------------

  /** The `attributes` of the JSON:API create payload; `gpus` maps a model name to its count. */
  datatype CreatePayload = CreatePayload(
    name: string, kind: string, image: string,
    vcpuCount: int, ramGb: int, storageGb: int, gpus: map<string, int>,
    locationId: string, useDedicatedIp: bool, sshKey: string)

  /**
   * The payload built from the selection. `now` is the epoch second used in the name and
   * `publicKeyLine` the first line of the operator's public key file.
   */
  function CreateRequest(sel: Selection, gpuCount: int, vcpus: int, ram: int, storage: int,
                         now: nat, publicKeyLine: string): (p: CreatePayload)
    ensures p.gpus.Keys == {sel.gpuModel} && p.gpus[sel.gpuModel] == gpuCount
    ensures p.locationId == sel.locationId
    ensures p.vcpuCount == vcpus && p.ramGb == ram && p.storageGb == storage
    ensures p.image == "ubuntu2404" && !p.useDedicatedIp
  {
    CreatePayload(
      "ComfyUI-" + NatToString(now), "virtualmachine", "ubuntu2404",
      vcpus, ram, storage, map[sel.gpuModel := gpuCount],
      sel.locationId, false, Strip(publicKeyLine))
  }

  // ---------------------------------------------------------------------------
  // Waiting for the instance (GET /api/v2/instances/{id})
  // ---------------------------------------------------------------------------

  /**
   * What one `requests` call yields: a response, or an exception (a connection error, a
   * timeout) that no `try` in the script catches, so it ends the calling method.
   */
  datatype Reply<T> = Answered(response: T) | Raised

  /** What one status request yields: the HTTP status and the `attributes` fields read. */
  datatype InstanceStatus = InstanceStatus(
    statusCode: int, status: Option<string>, ipAddress: Option<string>, sshPort: Option<int>)

  /** A response on which `wait_for_instance` returns: 200, "running" and a truthy address. */
  predicate Ready(r: InstanceStatus) {
    r.statusCode == 200 && r.status == Some("running") && Truthy(r.ipAddress)
  }

  /** A poll that ends the loop: a ready response, or a request that raises. */
  predicate Settles(r: Reply<InstanceStatus>) {
    r.Raised? || Ready(r.response)
  }

  /** The first poll among calls `from` .. `count - 1` that ends the loop. */
  function FirstSettled(polls: nat -> Reply<InstanceStatus>, from: nat, count: nat): (r: Option<nat>)
    ensures r.Some? ==> from <= r.value < count && Settles(polls(r.value))
    ensures r.Some? ==> forall m :: from <= m < r.value ==> !Settles(polls(m))
    ensures r.None? ==> forall m :: from <= m < count ==> !Settles(polls(m))
    decreases count - from
  {
    if from >= count then None
    else if Settles(polls(from)) then Some(from)
    else FirstSettled(polls, from + 1, count)
  }

  /**
   * `wait_for_instance`: poll every 10 seconds until a ready response or until `maxWait`
   * seconds have passed; on success wait 30 seconds more and return the address and the
   * SSH port (22 when absent). A request that raises ends the wait with `raised` and no
   * result. `elapsed` is the clock when the method returns.
   */
  method WaitForInstance(polls: nat -> Reply<InstanceStatus>, maxWait: int)
    returns (host: Option<string>, port: Option<int>, elapsed: nat, raised: bool)
    ensures raised <==>
      FirstSettled(polls, 0, PollBudget(maxWait)).Some? && polls(FirstSettled(polls, 0, PollBudget(maxWait)).value).Raised?
    ensures FirstSettled(polls, 0, PollBudget(maxWait)).Some? && !raised ==>
      var n := FirstSettled(polls, 0, PollBudget(maxWait)).value;
      host == polls(n).response.ipAddress && port == Some(polls(n).response.sshPort.GetOr(22))
      && elapsed == 10 * n + 30
    ensures raised ==>
      host.None? && port.None? && elapsed == 10 * FirstSettled(polls, 0, PollBudget(maxWait)).value
    ensures FirstSettled(polls, 0, PollBudget(maxWait)).None? ==>
      host.None? && port.None? && elapsed == 10 * PollBudget(maxWait)
    ensures host.Some? ==> Truthy(host)
  {
    elapsed := 0;
    var n: nat := 0;
    while elapsed < maxWait
      invariant elapsed == PollInterval * n && n <= PollBudget(maxWait)
      invariant forall m :: 0 <= m < n ==> !Settles(polls(m))
      decreases maxWait - elapsed
    {
      var reply := polls(n);
      if reply.Raised? {
        FirstSettledAt(polls, PollBudget(maxWait), n);
        return None, None, elapsed, true;
      }
      var response := reply.response;
      if response.statusCode == 200 {
        var status := response.status;
        if status == Some("running") {
          var sshHost := response.ipAddress;
          var sshPort := response.sshPort.GetOr(22);
          if Truthy(sshHost) {
            elapsed := elapsed + 30;
            FirstSettledAt(polls, PollBudget(maxWait), n);
            return sshHost, Some(sshPort), elapsed, false;
          }
        }
      }
      elapsed := elapsed + PollInterval;
      n := n + 1;
    }
    assert FirstSettled(polls, 0, PollBudget(maxWait)).None?;
    return None, None, elapsed, false;
  }

  lemma FirstSettledAt(polls: nat -> Reply<InstanceStatus>, count: nat, n: nat)
    requires n < count && Settles(polls(n))
    requires forall m :: 0 <= m < n ==> !Settles(polls(m))
    ensures FirstSettled(polls, 0, count) == Some(n)
  {
  }

  /** No status other than "running", and no response without an address, is ever returned. */
  lemma WaitReturnsOnlyRunning(polls: nat -> Reply<InstanceStatus>, maxWait: int)
    requires FirstSettled(polls, 0, PollBudget(maxWait)).Some?
    requires polls(FirstSettled(polls, 0, PollBudget(maxWait)).value).Answered?
    ensures var r := polls(FirstSettled(polls, 0, PollBudget(maxWait)).value).response;
      r.status == Some("running") && r.statusCode == 200 && Truthy(r.ipAddress)
    ensures 10 * FirstSettled(polls, 0, PollBudget(maxWait)).value < maxWait
  {
  }

  // ---------------------------------------------------------------------------
  // The remote run (run_remote_deployment)
  // ---------------------------------------------------------------------------

  /** The scp invocation that uploads the setup script. */
  function UploadCommand(host: string, port: int, keyPath: string, localScript: string): seq<string> {
    ["scp", "-P", IntToString(port), "-o", "StrictHostKeyChecking=no", "-o", "UserKnownHostsFile=/dev/null",
     "-i", keyPath, localScript, "root@" + host + ":/root/setup.sh"]
  }

  /** The ssh invocation that runs it. */
  function RunCommand(host: string, port: int, keyPath: string): seq<string> {
    ["ssh", "-p", IntToString(port), "-o", "StrictHostKeyChecking=no", "-o", "UserKnownHostsFile=/dev/null",
     "-i", keyPath, "root@" + host, "bash /root/setup.sh"]
  }

  datatype RemoteResult = UploadFailed | Succeeded | ScriptExited(code: int)

  /** The processes started, in order, and how the run was reported. */
  datatype RemoteRun = RemoteRun(issued: seq<seq<string>>, result: RemoteResult)

  const LocalScript: string := "/tmp/tensordock_remote_setup.sh"

  /**
   * `run_remote_deployment`: upload once, run once. `uploadExit` and `remoteExit` are the
   * exit codes of scp and ssh; the second is not consulted when the upload fails.
   */
  function RunRemoteDeployment(host: string, port: int, keyPath: string, uploadExit: int, remoteExit: int)
    : (r: RemoteRun)
    ensures uploadExit != 0 ==> r.issued == [UploadCommand(host, port, keyPath, LocalScript)] && r.result == UploadFailed
    ensures uploadExit == 0 ==> r.issued == [UploadCommand(host, port, keyPath, LocalScript), RunCommand(host, port, keyPath)]
    ensures r.result == Succeeded <==> uploadExit == 0 && remoteExit == 0
    ensures r.result.ScriptExited? ==> r.result.code == remoteExit != 0
  {
    var upload := UploadCommand(host, port, keyPath, LocalScript);
    if uploadExit != 0 then RemoteRun([upload], UploadFailed)
    else
      var run := RunCommand(host, port, keyPath);
      RemoteRun([upload, run], if remoteExit == 0 then Succeeded else ScriptExited(remoteExit))
  }

  // ---------------------------------------------------------------------------
  // Listing and terminating instances (list_and_manage_instances)
  // ---------------------------------------------------------------------------

  datatype Instance = Instance(id: Option<string>, name: Option<string>)

  /** The two shapes of the list response: `{"data": {"instances": [...]}}` or `{"data": [...]}`. */
  datatype InstanceList = Wrapped(instances: seq<Instance>) | Bare(items: seq<Instance>)

  function Instances(data: InstanceList): seq<Instance> {
    match data
    case Wrapped(xs) => xs
    case Bare(xs) => xs
  }

  /** `parse` on every field; `None` when any field does not parse. */
  function ParseEach(fields: seq<string>, parse: string -> Option<int>): (r: Option<seq<int>>)
    ensures r.Some? ==> (|r.value| == |fields|
      && forall k :: 0 <= k < |fields| ==> parse(fields[k]) == Some(r.value[k]))
    ensures r.None? <==> exists k :: 0 <= k < |fields| && parse(fields[k]).None?
  {
    if fields == [] then Some([])
    else match parse(fields[0])
      case None => None
      case Some(x) =>
        match ParseEach(fields[1..], parse)
        case None =>
          assert forall k :: 1 <= k < |fields| ==> fields[1..][k - 1] == fields[k];
          None
        case Some(xs) =>
          var r := [x] + xs;
          assert forall k :: 1 <= k < |fields| ==> fields[k] == fields[1..][k - 1] && r[k] == xs[k - 1];
          Some(r)
  }

  /** `int(x.strip())` for one field. */
  function ParseField(field: string): Option<int> {
    ParseInt(Strip(field))
  }

  /** `[int(x.strip()) for x in user_input.split(",")]`; `None` when that raises. */
  function ParseSelections(userInput: string): Option<seq<int>> {
    ParseEach(Split(userInput, ','), ParseField)
  }

  /** Integers written out and joined with commas are read back as the same list. */
  lemma ParseSelectionsRoundTrip(xs: seq<int>)
    requires |xs| >= 1
    ensures ParseSelections(Join(IntsToStrings(xs), [','])) == Some(xs)
  {
    var parts := IntsToStrings(xs);
    WrittenFields(xs);
    SplitJoin(parts, ',');
    var r := ParseEach(parts, ParseField);
    assert r.Some? && r.value == xs;
  }

  /** Each written integer is a comma-free field that parses back to it. */
  lemma WrittenFields(xs: seq<int>)
    ensures forall k :: 0 <= k < |xs| ==> ',' !in IntsToStrings(xs)[k] && ParseField(IntsToStrings(xs)[k]) == Some(xs[k])
  {
    forall k | 0 <= k < |xs| ensures ',' !in IntsToStrings(xs)[k] && ParseField(IntsToStrings(xs)[k]) == Some(xs[k]) {
      WrittenField(xs[k]);
    }
  }

  lemma WrittenField(x: int)
    ensures ',' !in IntToString(x) && ParseField(IntToString(x)) == Some(x)
  {
    IntToStringChars(x);
    StripClean(IntToString(x));
    IntToStringRoundTrip(x);
  }

  function IntsToStrings(xs: seq<int>): (r: seq<string>)
    ensures |r| == |xs| && forall k :: 0 <= k < |xs| ==> r[k] == IntToString(xs[k])
  {
    if xs == [] then [] else [IntToString(xs[0])] + IntsToStrings(xs[1..])
  }

  lemma IntToStringChars(i: int)
    ensures var s := IntToString(i); s != [] && ',' !in s && !IsSpace(s[0]) && !IsSpace(s[|s| - 1])
  {
    var d := NatToString(if i < 0 then -i else i);
    assert d[|d| - 1] in d;
    if i < 0 {
      assert IntToString(i) == "-" + d;
    }
  }

  predicate InRange(idx: int, n: int) { 1 <= idx <= n }

  /** The valid selections, in input order. */
  function ValidSelections(sels: seq<int>, n: int): (r: seq<int>)
    ensures forall k :: 0 <= k < |r| ==> InRange(r[k], n)
  {
    if sels == [] then [] else
      ValidSelections(sels[..|sels| - 1], n)
      + (if InRange(sels[|sels| - 1], n) then [sels[|sels| - 1]] else [])
  }

  /** Every in-range selection is kept, as often as it was given, and nothing else is. */
  lemma {:induction false} ValidSelectionsKeepAll(sels: seq<int>, n: int)
    ensures forall x :: multiset(ValidSelections(sels, n))[x] == if InRange(x, n) then multiset(sels)[x] else 0
    decreases |sels|
  {
    if sels != [] {
      var init := sels[..|sels| - 1];
      ValidSelectionsKeepAll(init, n);
      assert sels == init + [sels[|sels| - 1]];
    }
  }

  /** The instances chosen for termination: `instances[idx - 1]` for each valid `idx`, in order. */
  function Chosen(instances: seq<Instance>, sels: seq<int>): (r: seq<Instance>)
  {
    if sels == [] then [] else
      Chosen(instances, sels[..|sels| - 1])
      + (if InRange(sels[|sels| - 1], |instances|) then [instances[sels[|sels| - 1] - 1]] else [])
  }

  lemma {:induction false} ChosenIsValidSelections(instances: seq<Instance>, sels: seq<int>)
    ensures var v := ValidSelections(sels, |instances|);
      |Chosen(instances, sels)| == |v|
      && forall k :: 0 <= k < |v| ==> Chosen(instances, sels)[k] == instances[v[k] - 1]
    decreases |sels|
  {
    if sels != [] {
      ChosenIsValidSelections(instances, sels[..|sels| - 1]);
    }
  }

  /** Nothing is chosen exactly when no selection is in 1..len(instances). */
  lemma {:induction false} ChosenEmpty(instances: seq<Instance>, sels: seq<int>)
    ensures Chosen(instances, sels) == [] <==> forall k :: 0 <= k < |sels| ==> !InRange(sels[k], |instances|)
    decreases |sels|
  {
    if sels != [] {
      var init := sels[..|sels| - 1];
      ChosenEmpty(instances, init);
      assert forall k :: 0 <= k < |init| ==> init[k] == sels[k];
    }
  }

  /** The loop that fills `instances_to_delete`. */
  method ChooseInstances(instances: seq<Instance>, selections: seq<int>) returns (toDelete: seq<Instance>)
    ensures toDelete == Chosen(instances, selections)
  {
    toDelete := [];
    var k := 0;
    while k < |selections|
      invariant 0 <= k <= |selections|
      invariant toDelete == Chosen(instances, selections[..k])
    {
      var idx := selections[k];
      assert selections[..k + 1][..k] == selections[..k];
      if 1 <= idx <= |instances| {
        toDelete := toDelete + [instances[idx - 1]];
      }
      k := k + 1;
    }
    assert selections[..k] == selections;
  }

  /** One DELETE request and whether it was reported as terminated. */
  datatype Deletion = Deletion(url: string, terminated: bool)

  function DeleteUrl(inst: Instance): string {
    "https://dashboard.tensordock.com/api/v2/instances/" + StrOrNone(inst.id)
  }

  /**
   * The termination loop: one DELETE per chosen instance, in order, the `k`-th answered by
   * `deleteReply(k)`. Each outcome depends on its own status only, and a failed status does
   * not stop the loop; a request that raises does, and the remaining instances are left.
   */
  method TerminateAll(toDelete: seq<Instance>, deleteReply: nat -> Reply<int>)
    returns (results: seq<Deletion>, raised: bool)
    ensures |results| <= |toDelete|
    ensures forall k :: 0 <= k < |results| ==>
      deleteReply(k).Answered?
      && results[k] == Deletion(DeleteUrl(toDelete[k]), deleteReply(k).response == 200 || deleteReply(k).response == 204)
    ensures raised <==> |results| < |toDelete|
    ensures raised ==> deleteReply(|results|).Raised?
  {
    results := [];
    var k := 0;
    while k < |toDelete|
      invariant 0 <= k <= |toDelete| && |results| == k
      invariant forall m :: 0 <= m < k ==>
        deleteReply(m).Answered?
        && results[m] == Deletion(DeleteUrl(toDelete[m]), deleteReply(m).response == 200 || deleteReply(m).response == 204)
    {
      var reply := deleteReply(k);
      if reply.Raised? {
        return results, true;
      }
      results := results + [Deletion(DeleteUrl(toDelete[k]), reply.response in {200, 204})];
      k := k + 1;
    }
    raised := false;
  }

  datatype ManageOutcome =
    | ListRaised
    | FetchFailed(status: int)
    | NoInstances
    | Quit
    | InvalidInput
    | NoValidSelection
    | NotConfirmed(chosen: seq<Instance>)
    | Terminated(chosen: seq<Instance>, results: seq<Deletion>)
    | DeleteRaised(chosen: seq<Instance>, results: seq<Deletion>)

  /** Every question of the dialogue answered so that the chosen instances are deleted. */
  predicate Confirmed(listReply: Reply<int>, data: InstanceList, selectionAnswer: string, confirmAnswer: string) {
    && listReply == Answered(200) && Instances(data) != []
    && Lower(Strip(selectionAnswer)) != "q"
    && ParseSelections(Strip(selectionAnswer)).Some?
    && Chosen(Instances(data), ParseSelections(Strip(selectionAnswer)).value) != []
    && Lower(Strip(confirmAnswer)) == "yes"
  }

  /**
   * `list_and_manage_instances` with the list reply, the two console answers and the DELETE
   * replies as parameters. `ListRaised` and `DeleteRaised` are the exceptions that escape.
   */
  method ListAndManageInstances(listReply: Reply<int>, data: InstanceList, selectionAnswer: string,
                                confirmAnswer: string, deleteReply: nat -> Reply<int>)
    returns (outcome: ManageOutcome)
    ensures outcome.ListRaised? <==> listReply.Raised?
    ensures outcome.FetchFailed? <==> listReply.Answered? && listReply.response != 200
    ensures outcome.Terminated? || outcome.DeleteRaised? <==>
      Confirmed(listReply, data, selectionAnswer, confirmAnswer)
    ensures outcome.InvalidInput? ==> ParseSelections(Strip(selectionAnswer)).None?
    ensures outcome.Terminated? || outcome.DeleteRaised? ==>
      && outcome.chosen == Chosen(Instances(data), ParseSelections(Strip(selectionAnswer)).value)
      && |outcome.results| <= |outcome.chosen|
      && forall k :: 0 <= k < |outcome.results| ==>
           deleteReply(k).Answered?
           && outcome.results[k] == Deletion(DeleteUrl(outcome.chosen[k]),
                deleteReply(k).response == 200 || deleteReply(k).response == 204)
    ensures outcome.Terminated? ==> |outcome.results| == |outcome.chosen|
    ensures outcome.DeleteRaised? ==>
      |outcome.results| < |outcome.chosen| && deleteReply(|outcome.results|).Raised?
  {
    if listReply.Raised? {
      return ListRaised;
    }
    if listReply.response != 200 {
      return FetchFailed(listReply.response);
    }
    var instances := Instances(data);
    if instances == [] {
      return NoInstances;
    }
    var userInput := Strip(selectionAnswer);
    if Lower(userInput) == "q" {
      return Quit;
    }
    var selections := ParseSelections(userInput);
    if selections.None? {
      return InvalidInput;
    }
    var toDelete := ChooseInstances(instances, selections.value);
    if toDelete == [] {
      return NoValidSelection;
    }
    var confirm := Lower(Strip(confirmAnswer));
    if confirm != "yes" {
      return NotConfirmed(toDelete);
    }
    var results, raised := TerminateAll(toDelete, deleteReply);
    if raised {
      return DeleteRaised(toDelete, results);
    }
    return Terminated(toDelete, results);
  }

  // ---------------------------------------------------------------------------
  // The deployer object and the deploy flow (deploy_with_raw_api)
  // ---------------------------------------------------------------------------

  /** The parts of the create response the deployer reads: `data.id` and `data.attributes`. */
  datatype Created = Created(id: Option<string>, name: Option<string>, status: Option<string>)

  datatype DeployOutcome =
    | LocationsRaised
    | LocationsUnavailable(status: int)
    | NoRtx4090
    | CreateRaised(payload: CreatePayload)
    | CreateRejected(payload: CreatePayload, status: int)
    | PollRaised(payload: CreatePayload, created: Created)
    | NotReady(payload: CreatePayload, created: Created)
    | Deployed(payload: CreatePayload, created: Created, host: string, port: int, run: RemoteRun)

  /** The locations were listed, an RTX 4090 was found, and the create request was accepted. */
  predicate Accepted(locationsReply: Reply<int>, locations: seq<Location>, createReply: Reply<int>) {
    && locationsReply == Answered(200) && Select(locations).Some?
    && createReply.Answered? && (createReply.response == 200 || createReply.response == 201)
  }

  class ComfyUIDeployer {
    const civitaiKey: string
    /** `self.server_info`: the last successful create response. */
    var serverInfo: Option<Created>

    constructor(civitaiKey: string)
      ensures this.civitaiKey == civitaiKey && serverInfo.None?
    {
      this.civitaiKey := civitaiKey;
      serverInfo := None;
    }

    /**
     * `deploy_with_raw_api`: find a location, create the instance there, wait for it (with
     * the default 300 s), then upload and run the setup script once. Returns the create
     * response (`None` before a successful create, and when an exception escapes) and what
     * happened; the `...Raised` outcomes are the requests whose exception escapes.
     */
    method DeployWithRawApi(gpuCount: int, vcpus: int, ram: int, storage: int, now: nat,
                            publicKeyLine: string, keyPath: string,
                            locationsReply: Reply<int>, locations: seq<Location>,
                            createReply: Reply<int>, created: Created,
                            polls: nat -> Reply<InstanceStatus>, uploadExit: int, remoteExit: int)
      returns (result: Option<Created>, outcome: DeployOutcome)
      modifies this`serverInfo
      ensures outcome.LocationsRaised? <==> locationsReply.Raised?
      ensures outcome.LocationsUnavailable? <==> locationsReply.Answered? && locationsReply.response != 200
      ensures outcome.NoRtx4090? <==> locationsReply == Answered(200) && Select(locations).None?
      ensures outcome.CreateRaised? <==>
        locationsReply == Answered(200) && Select(locations).Some? && createReply.Raised?
      ensures outcome.CreateRejected? <==>
        locationsReply == Answered(200) && Select(locations).Some? && createReply.Answered?
        && createReply.response != 200 && createReply.response != 201
      ensures !outcome.LocationsRaised? && !outcome.LocationsUnavailable? && !outcome.NoRtx4090? ==>
        outcome.payload == CreateRequest(Select(locations).value, gpuCount, vcpus, ram, storage, now, publicKeyLine)
      ensures result.Some? <==> outcome.NotReady? || outcome.Deployed?
      ensures result.Some? ==> result == Some(created)
      ensures outcome.PollRaised? || result.Some? ==> serverInfo == Some(created)
      ensures !outcome.PollRaised? && result.None? ==> serverInfo == old(serverInfo)
      ensures Accepted(locationsReply, locations, createReply) ==>
        var first := FirstSettled(polls, 0, PollBudget(300));
        && (outcome.PollRaised? <==> first.Some? && polls(first.value).Raised?)
        && (outcome.Deployed? <==> first.Some? && polls(first.value).Answered?)
      ensures outcome.Deployed? ==>
        var n := FirstSettled(polls, 0, PollBudget(300)).value;
        && Some(outcome.host) == polls(n).response.ipAddress
        && outcome.port == polls(n).response.sshPort.GetOr(22)
        && outcome.run == RunRemoteDeployment(outcome.host, outcome.port, keyPath, uploadExit, remoteExit)
    {
      if locationsReply.Raised? {
        return None, LocationsRaised;
      }
      if locationsReply.response != 200 {
        return None, LocationsUnavailable(locationsReply.response);
      }
      var selection := SelectLocation(locations);
      if selection.None? {
        return None, NoRtx4090;
      }
      var payload := CreateRequest(selection.value, gpuCount, vcpus, ram, storage, now, publicKeyLine);
      if createReply.Raised? {
        return None, CreateRaised(payload);
      }
      if createReply.response !in {200, 201} {
        return None, CreateRejected(payload, createReply.response);
      }
      serverInfo := Some(created);
      var sshHost, sshPort, _, raised := WaitForInstance(polls, 300);
      if raised {
        return None, PollRaised(payload, created);
      }
      if !Truthy(sshHost) {
        return Some(created), NotReady(payload, created);
      }
      var run := RunRemoteDeployment(sshHost.value, sshPort.value, keyPath, uploadExit, remoteExit);
      return Some(created), Deployed(payload, created, sshHost.value, sshPort.value, run);
    }
  }
}
