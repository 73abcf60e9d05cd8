/**
 * The v0 TensorDock deployer (`TensorDockDeployer` in tensordock_deploy.py): request
 * dispatch, the RTX 4090 stock filter, the create request with its name normalisation,
 * the readiness poll that fills in the connection fields, the saved connection record,
 * the remote command sequence and the delete call.
 *
 * HTTP replies, exit codes of local commands and the clock reading used in the instance
 * name are parameters; polls are indexed by call number as in the v2 deployer.
 */
module Deploy {
  import opened Wrappers
  import opened Text
  import opened Clock

  const ApiBaseUrl: string := "https://marketplace.tensordock.com/api/v0"
  const ConsoleApiUrl: string := "https://console.tensordock.com/api/v0"

  // ---------------------------------------------------------------------------
  // _make_request
  // ---------------------------------------------------------------------------

  /** What `requests` gives back for one call: a status and decoded body, or a transport error. */
  datatype HttpResult<T> = Response(status: int, body: T) | TransportError

  datatype Verb = GET | POST | DELETE

  /** A request that was actually sent. */
  datatype Request = Request(verb: Verb, url: string)

  /**
   * The three ways `_make_request` ends: the decoded body, `sys.exit(1)` after a
   * `RequestException`, or the `ValueError` for an unsupported method (which is not a
   * `RequestException` and so reaches the caller).
   */
  datatype Reply<T> = Json(body: T) | Exit(code: int) | UnsupportedMethod(verbName: string)

  function VerbOf(verbName: string): (v: Option<Verb>)
    ensures v.Some? <==> verbName == "GET" || verbName == "POST" || verbName == "DELETE"
  {
    if verbName == "GET" then Some(GET)
    else if verbName == "POST" then Some(POST)
    else if verbName == "DELETE" then Some(DELETE)
    else None
  }

  /** `raise_for_status` raises for client and server errors. */
  predicate IsHttpError(status: int) { 400 <= status < 600 }

  function RequestUrl(endpoint: string, useConsoleApi: bool): string {
    (if useConsoleApi then ConsoleApiUrl else ApiBaseUrl) + "/" + endpoint
  }

  /** `_make_request`: the request sent, if any, and how the call ends. */
  function MakeRequest<T>(verbName: string, endpoint: string, useConsoleApi: bool, response: HttpResult<T>)
    : (r: (Option<Request>, Reply<T>))
    ensures r.1.UnsupportedMethod? <==> VerbOf(verbName).None?
    ensures r.1.UnsupportedMethod? <==> r.0.None?
    ensures r.0.Some? ==> r.0.value.verb == VerbOf(verbName).value
    ensures r.1.Json? <==> r.0.Some? && response.Response? && !IsHttpError(response.status)
    ensures r.1.Json? ==> r.1.body == response.body
    ensures r.1.Exit? ==> r.1.code == 1
  {
    match VerbOf(verbName)
    case None => (None, UnsupportedMethod(verbName))
    case Some(verb) =>
      var sent := Some(Request(verb, RequestUrl(endpoint, useConsoleApi)));
      match response
      case TransportError => (sent, Exit(1))
      case Response(status, body) =>
        if IsHttpError(status) then (sent, Exit(1)) else (sent, Json(body))
  }

  // ---------------------------------------------------------------------------
  // get_available_locations
  // ---------------------------------------------------------------------------

  /** One entry of a hostnode's `gpu_models`; absent keys are `None`. */
  datatype GpuModel = GpuModel(model: Option<string>, amount: Option<int>)

  /** One entry of `hostnodes`; absent `gpu_models` is the empty list, absent `specs` the empty map. */
  datatype Hostnode = Hostnode(location: Option<string>, hostnode: Option<string>,
                               gpuModels: seq<GpuModel>, specs: map<string, int>)

  /** The stock response: `hostnodes`, the empty list when absent. */
  datatype Stock = Stock(hostnodes: seq<Hostnode>)

  /** One element of `rtx_4090_locations`. */
  datatype Offer = Offer(location: string, hostnode: string, gpuModel: string, gpuCount: int, specs: map<string, int>)

  predicate Is4090(g: GpuModel) { Contains(g.model.GetOr(""), "4090") }

  function OfferFor(h: Hostnode, g: GpuModel): Offer {
    Offer(h.location.GetOr("Unknown"), h.hostnode.GetOr(""), g.model.GetOr(""), g.amount.GetOr(0), h.specs)
  }

  /** The offers of one hostnode, for its first `n` GPU models. */
  function NodeOffers(h: Hostnode, n: nat): seq<Offer>
    requires n <= |h.gpuModels|
  {
    if n == 0 then [] else
      NodeOffers(h, n - 1) + (if Is4090(h.gpuModels[n - 1]) then [OfferFor(h, h.gpuModels[n - 1])] else [])
  }

  /** The offers of a list of hostnodes, in response order. */
  function Offers(hs: seq<Hostnode>): seq<Offer> {
    if hs == [] then [] else
      Offers(hs[..|hs| - 1]) + NodeOffers(hs[|hs| - 1], |hs[|hs| - 1].gpuModels|)
  }

  lemma {:induction false} NodeOffersSound(h: Hostnode, n: nat, o: Offer)
    requires n <= |h.gpuModels| && o in NodeOffers(h, n)
    ensures exists j :: 0 <= j < n && Is4090(h.gpuModels[j]) && o == OfferFor(h, h.gpuModels[j])
  {
    if o !in NodeOffers(h, n - 1) {
      assert o == OfferFor(h, h.gpuModels[n - 1]);
    } else {
      NodeOffersSound(h, n - 1, o);
    }
  }

  lemma {:induction false} NodeOffersComplete(h: Hostnode, n: nat, j: nat)
    requires j < n <= |h.gpuModels| && Is4090(h.gpuModels[j])
    ensures OfferFor(h, h.gpuModels[j]) in NodeOffers(h, n)
  {
    if j < n - 1 {
      NodeOffersComplete(h, n - 1, j);
    }
  }

  /**
   * Every offer comes from a GPU model whose name contains "4090", and every such model of
   * every hostnode gives an offer, whatever its `amount` (absent counts as 0).
   */
  lemma {:induction false} OffersExact(hs: seq<Hostnode>)
    ensures forall o :: o in Offers(hs) ==>
      exists i, j :: 0 <= i < |hs| && 0 <= j < |hs[i].gpuModels| && Is4090(hs[i].gpuModels[j])
        && o == OfferFor(hs[i], hs[i].gpuModels[j])
    ensures forall i, j :: 0 <= i < |hs| && 0 <= j < |hs[i].gpuModels| && Is4090(hs[i].gpuModels[j]) ==>
      OfferFor(hs[i], hs[i].gpuModels[j]) in Offers(hs)
    decreases |hs|
  {
    if hs != [] {
      var init, last := hs[..|hs| - 1], hs[|hs| - 1];
      OffersExact(init);
      forall o | o in Offers(hs)
        ensures exists i, j :: (0 <= i < |hs| && 0 <= j < |hs[i].gpuModels| && Is4090(hs[i].gpuModels[j])
          && o == OfferFor(hs[i], hs[i].gpuModels[j]))
      {
        if o !in Offers(init) {
          NodeOffersSound(last, |last.gpuModels|, o);
          var j :| 0 <= j < |last.gpuModels| && Is4090(last.gpuModels[j]) && o == OfferFor(last, last.gpuModels[j]);
          assert hs[|hs| - 1] == last;
        } else {
          var i, j :| 0 <= i < |init| && 0 <= j < |init[i].gpuModels| && Is4090(init[i].gpuModels[j])
            && o == OfferFor(init[i], init[i].gpuModels[j]);
          assert hs[i] == init[i];
        }
      }
      forall i, j | 0 <= i < |hs| && 0 <= j < |hs[i].gpuModels| && Is4090(hs[i].gpuModels[j])
        ensures OfferFor(hs[i], hs[i].gpuModels[j]) in Offers(hs)
      {
        if i == |hs| - 1 {
          NodeOffersComplete(last, |last.gpuModels|, j);
        } else {
          assert hs[i] == init[i];
        }
      }
    }
  }

  /** The offers of consecutive runs of hostnodes follow each other, in response order. */
  lemma {:induction false} OffersAppend(a: seq<Hostnode>, b: seq<Hostnode>)
    ensures Offers(a + b) == Offers(a) + Offers(b)
    decreases |b|
  {
    if b == [] {
      assert a + b == a;
    } else {
      var init, last := b[..|b| - 1], b[|b| - 1];
      OffersAppend(a, init);
      assert (a + b)[..|a + b| - 1] == a + init && (a + b)[|a + b| - 1] == last;
      var node := NodeOffers(last, |last.gpuModels|);
      assert Offers(a + b) == (Offers(a) + Offers(init)) + node;
      assert Offers(b) == Offers(init) + node;
    }
  }

  /** Model `j` is the first "4090" model of hostnode `h`. */
  predicate FirstModelAt(h: Hostnode, j: int) {
    0 <= j < |h.gpuModels| && Is4090(h.gpuModels[j]) && forall k :: 0 <= k < j ==> !Is4090(h.gpuModels[k])
  }

  /**
   * Model `j` of hostnode `i` is the first "4090" model of the response: no earlier hostnode
   * has one, and no earlier model of hostnode `i` is one.
   */
  predicate FirstOfferAt(hs: seq<Hostnode>, i: int, j: int) {
    && 0 <= i < |hs| && FirstModelAt(hs[i], j)
    && (forall a, k :: 0 <= a < i && 0 <= k < |hs[a].gpuModels| ==> !Is4090(hs[a].gpuModels[k]))
  }

  /** No offer from the first `n` models means none of them is a "4090" model. */
  lemma NodeOffersEmpty(h: Hostnode, n: nat)
    requires n <= |h.gpuModels| && NodeOffers(h, n) == []
    ensures forall k :: 0 <= k < n ==> !Is4090(h.gpuModels[k])
  {
    forall k | 0 <= k < n ensures !Is4090(h.gpuModels[k]) {
      if Is4090(h.gpuModels[k]) {
        NodeOffersComplete(h, n, k);
      }
    }
  }

  /** The first offer of a hostnode comes from its first "4090" model. */
  lemma {:induction false} NodeFirstOffer(h: Hostnode, n: nat)
    requires n <= |h.gpuModels| && NodeOffers(h, n) != []
    ensures exists j :: j < n && FirstModelAt(h, j) && NodeOffers(h, n)[0] == OfferFor(h, h.gpuModels[j])
  {
    var prefix := NodeOffers(h, n - 1);
    if prefix != [] {
      NodeFirstOffer(h, n - 1);
      var j :| j < n - 1 && FirstModelAt(h, j) && prefix[0] == OfferFor(h, h.gpuModels[j]);
      assert NodeOffers(h, n)[0] == prefix[0];
    } else {
      NodeOffersEmpty(h, n - 1);
      assert FirstModelAt(h, n - 1);
    }
  }

  /** A non-empty offer list starts with the offer of the response's first "4090" model. */
  lemma {:induction false} FirstOfferExists(hs: seq<Hostnode>)
    requires Offers(hs) != []
    ensures exists i, j :: FirstOfferAt(hs, i, j) && Offers(hs)[0] == OfferFor(hs[i], hs[i].gpuModels[j])
    decreases |hs|
  {
    var init, last := hs[..|hs| - 1], hs[|hs| - 1];
    if Offers(init) != [] {
      FirstOfferExists(init);
      var i, j :| FirstOfferAt(init, i, j) && Offers(init)[0] == OfferFor(init[i], init[i].gpuModels[j]);
      assert forall a :: 0 <= a <= i ==> hs[a] == init[a];
      assert FirstOfferAt(hs, i, j);
    } else {
      NodeFirstOffer(last, |last.gpuModels|);
      var j :| j < |last.gpuModels| && FirstModelAt(last, j)
        && NodeOffers(last, |last.gpuModels|)[0] == OfferFor(last, last.gpuModels[j]);
      OffersExact(init);
      assert forall a :: 0 <= a < |init| ==> hs[a] == init[a];
      assert FirstOfferAt(hs, |hs| - 1, j);
    }
  }

  /** The first offer is that of the response's first "4090" model, whichever it is. */
  lemma FirstOffer(hs: seq<Hostnode>, i: int, j: int)
    requires FirstOfferAt(hs, i, j)
    ensures Offers(hs) != [] && Offers(hs)[0] == OfferFor(hs[i], hs[i].gpuModels[j])
  {
    OffersExact(hs);
    assert OfferFor(hs[i], hs[i].gpuModels[j]) in Offers(hs);
    FirstOfferExists(hs);
    var i', j' :| FirstOfferAt(hs, i', j') && Offers(hs)[0] == OfferFor(hs[i'], hs[i'].gpuModels[j']);
    FirstOfferUnique(hs, i, j, i', j');
  }

  lemma FirstOfferUnique(hs: seq<Hostnode>, i: int, j: int, i': int, j': int)
    requires FirstOfferAt(hs, i, j) && FirstOfferAt(hs, i', j')
    ensures i == i' && j == j'
  {
  }

  /** A hostnode whose 4090 model has no `amount` still gives an offer, with count 0. */
  lemma NoAmountFilter(hs: seq<Hostnode>, i: nat, j: nat)
    requires i < |hs| && j < |hs[i].gpuModels| && Is4090(hs[i].gpuModels[j]) && hs[i].gpuModels[j].amount.None?
    ensures exists o :: o in Offers(hs) && o.gpuCount == 0 && o.hostnode == hs[i].hostnode.GetOr("")
  {
    OffersExact(hs);
    assert OfferFor(hs[i], hs[i].gpuModels[j]) in Offers(hs);
  }

  // ---------------------------------------------------------------------------
  // deploy_server
  // ---------------------------------------------------------------------------

  /** `gpu_model.replace(" ", "_")`. */
  function GpuModelParam(gpuModel: string): (r: string)
    ensures ' ' !in r
  {
    Replace(gpuModel, ' ', "_")
  }

  /** A model name without underscores is recovered from its parameter form. */
  lemma GpuModelParamInverse(gpuModel: string)
    requires '_' !in gpuModel
    ensures Replace(GpuModelParam(gpuModel), '_', " ") == gpuModel
  {
    ReplaceInverse(gpuModel, ' ', '_');
  }

  /** `os.replace(" ", "_").replace(".", "")`. */
  function OsParam(os: string): (r: string)
    ensures ' ' !in r && '.' !in r
  {
    var spaced := Replace(os, ' ', "_");
    ReplaceAbsent(spaced, '.', "", ' ');
    Replace(spaced, '.', "")
  }

  /**
   * A release name of the form "Name Major.Minor Suffix" becomes "Name_MajorMinor_Suffix";
   * "Ubuntu 22.04 LTS" becomes "Ubuntu_2204_LTS".
   */
  lemma OsParamOfRelease(name: string, major: string, minor: string, suffix: string)
    requires ' ' !in name && ' ' !in major && ' ' !in minor && ' ' !in suffix
    requires '.' !in name && '.' !in major && '.' !in minor && '.' !in suffix
    ensures OsParam(name + " " + major + "." + minor + " " + suffix) == name + "_" + major + minor + "_" + suffix
  {
    ReleaseReplaced(name, major, minor, suffix, " ", ".", "_");
  }

  /** OsParamOfRelease with the three one-character strings as parameters. */
  lemma ReleaseReplaced(name: string, major: string, minor: string, suffix: string, space: string, dot: string, underscore: string)
    requires space == [' '] && dot == ['.'] && underscore == ['_']
    requires ' ' !in name && ' ' !in major && ' ' !in minor && ' ' !in suffix
    requires '.' !in name && '.' !in major && '.' !in minor && '.' !in suffix
    ensures OsParam(name + space + major + dot + minor + space + suffix) == name + underscore + major + minor + underscore + suffix
  {
    var spaced := name + underscore + major + dot + minor + underscore + suffix;
    assert Replace(name + space + major + dot + minor + space + suffix, ' ', underscore) == spaced by {
      ReplaceSeven(name, space, major, dot, minor, space, suffix, ' ', underscore);
      assert Replace(space, ' ', underscore) == underscore && Replace(dot, ' ', underscore) == dot;
    }
    assert Replace(spaced, '.', []) == name + underscore + major + minor + underscore + suffix by {
      ReplaceSeven(name, underscore, major, dot, minor, underscore, suffix, '.', []);
      assert Replace(underscore, '.', []) == underscore && Replace(dot, '.', []) == [];
      var head := name + underscore + major;
      assert head + [] == head;
    }
  }

  /** Replacing in seven concatenated pieces replaces in each piece. */
  lemma ReplaceSeven(p1: string, p2: string, p3: string, p4: string, p5: string, p6: string, p7: string, c: char, t: string)
    ensures Replace(p1 + p2 + p3 + p4 + p5 + p6 + p7, c, t)
         == Replace(p1, c, t) + Replace(p2, c, t) + Replace(p3, c, t) + Replace(p4, c, t)
          + Replace(p5, c, t) + Replace(p6, c, t) + Replace(p7, c, t)
  {
    ReplaceAppend(p1 + p2 + p3 + p4 + p5 + p6, p7, c, t);
    ReplaceAppend(p1 + p2 + p3 + p4 + p5, p6, c, t);
    ReplaceAppend(p1 + p2 + p3 + p4, p5, c, t);
    ReplaceAppend(p1 + p2 + p3, p4, c, t);
    ReplaceAppend(p1 + p2, p3, c, t);
    ReplaceAppend(p1, p2, c, t);
  }

  /** The `deploy_data` of the create request. */
  datatype DeployData = DeployData(gpuModel: string, gpuCount: int, vcpus: int, ram: int, storage: int,
                                   hostnode: string, operatingSystem: string, name: string)

  /** The create response: `server.id`, absent keys `None`. */
  datatype Created = Created(serverId: Option<string>)

  /** The server description of `client/get/{id}`; absent keys `None`. */
  datatype ServerStatus = ServerStatus(status: Option<string>, ip: Option<string>, port: Option<int>,
                                       password: Option<string>)

  datatype DeployResult = Exited(code: int) | Deployed(data: DeployData, created: Created)

  datatype WaitResult = Ready | TimedOut | ExitedWhilePolling(code: int)

  /** What one `os.system` call of the command loop reported. */
  datatype CommandReport = Completed | Failed(code: int, needsManualIntervention: bool)

  /** A value of the saved JSON record. */
  datatype Json = JNull | JStr(s: string) | JInt(i: int)

  function OptStr(v: Option<string>): Json {
    match v
    case None => JNull
    case Some(s) => JStr(s)
  }

  function OptInt(v: Option<int>): Json {
    match v
    case None => JNull
    case Some(i) => JInt(i)
  }

  const AptUpdate: string := "apt-get update"
  const CloneOrPull: string :=
    "git clone https://github.com/ElectricEspeon/tensordock-deploy.git /root/comfyui || (cd /root/comfyui && git pull)"
  const EnterRepo: string := "cd /root/comfyui"
  const MakeExecutable: string := "chmod +x deploy.sh"
  const RunDeployScript: string := "DEBIAN_FRONTEND=noninteractive ./deploy.sh"
  const ComposeUp: string := "docker compose up -d"

  /** The commands `setup_and_deploy_comfyui` runs on the server, in order. */
  function RemoteCommands(dockerImage: string): seq<string> {
    [ AptUpdate, CloneOrPull, EnterRepo, MakeExecutable, RunDeployScript,
      "docker pull " + dockerImage,
      "sed -i 's|build: .|image: " + dockerImage + "|g' docker-compose.yml",
      ComposeUp ]
  }

  const InstallSshpass: string := "sudo apt-get update && sudo apt-get install -y sshpass"

  /** The report for one remote command with its exit status. */
  function ReportFor(cmd: string, code: int): CommandReport {
    if code != 0 then Failed(code, Contains(cmd, "deploy.sh")) else Completed
  }

  class TensorDockDeployer {
    var serverId: Option<string>
    var serverIp: Option<string>
    var serverPort: Option<int>
    var serverPassword: Option<string>

    constructor()
      ensures serverId.None? && serverIp.None? && serverPort.None? && serverPassword.None?
    {
      serverId, serverIp, serverPort, serverPassword := None, None, None, None;
    }

    /**
     * `get_available_locations`: one GET of `client/deploy/hostnodes`, then the loop that
     * collects an offer for every GPU model whose name contains "4090".
     */
    method GetAvailableLocations(stockResponse: HttpResult<Stock>) returns (r: Reply<seq<Offer>>)
      ensures r.Exit? <==> stockResponse.TransportError? || IsHttpError(stockResponse.status)
      ensures !r.UnsupportedMethod?
      ensures r.Json? ==> r.body == Offers(stockResponse.body.hostnodes)
    {
      var (_, reply) := MakeRequest("GET", "client/deploy/hostnodes", false, stockResponse);
      if reply.Exit? {
        return Exit(reply.code);
      }
      var hostnodes := reply.body.hostnodes;
      var offers: seq<Offer> := [];
      var i := 0;
      while i < |hostnodes|
        invariant 0 <= i <= |hostnodes|
        invariant offers == Offers(hostnodes[..i])
      {
        var location := hostnodes[i];
        var gpus := location.gpuModels;
        var j := 0;
        while j < |gpus|
          invariant 0 <= j <= |gpus|
          invariant offers == Offers(hostnodes[..i]) + NodeOffers(location, j)
        {
          if Contains(gpus[j].model.GetOr(""), "4090") {
            offers := offers + [OfferFor(location, gpus[j])];
          }
          j := j + 1;
        }
        assert hostnodes[..i + 1][..i] == hostnodes[..i];
        i := i + 1;
      }
      assert hostnodes[..i] == hostnodes;
      return Json(offers);
    }

    /**
     * `deploy_server`: exits when the stock request fails or offers nothing, otherwise
     * creates the server on the first offer's hostnode; `server_id` is stored from any
     * decoded create response, and a falsy one exits. `now` is the epoch second.
     */
    method DeployServer(gpuModel: string, gpuCount: int, vcpus: int, ram: int, storage: int, os: string,
                        now: nat, stockResponse: HttpResult<Stock>, createResponse: HttpResult<Created>)
      returns (r: DeployResult)
      modifies this`serverId
      ensures r.Deployed? <==>
        && !stockResponse.TransportError? && !IsHttpError(stockResponse.status)
        && Offers(stockResponse.body.hostnodes) != []
        && !createResponse.TransportError? && !IsHttpError(createResponse.status)
        && Truthy(createResponse.body.serverId)
      ensures r.Exited? ==> r.code == 1
      ensures r.Deployed? ==>
        && r.data.hostnode == Offers(stockResponse.body.hostnodes)[0].hostnode
        && r.data.gpuModel == GpuModelParam(gpuModel)
        && r.data.operatingSystem == OsParam(os)
        && r.data.gpuCount == gpuCount && r.data.vcpus == vcpus && r.data.ram == ram && r.data.storage == storage
        && r.created == createResponse.body && serverId == createResponse.body.serverId
      ensures r.Deployed? ==> exists i, j :: (FirstOfferAt(stockResponse.body.hostnodes, i, j)
                                              && r.data.hostnode == stockResponse.body.hostnodes[i].hostnode.GetOr(""))
    {
      var locations := GetAvailableLocations(stockResponse);
      if locations.Exit? {
        return Exited(1);
      }
      if locations.body == [] {
        return Exited(1);
      }
      var selected := locations.body[0];
      FirstOfferExists(stockResponse.body.hostnodes);
      var data := DeployData(GpuModelParam(gpuModel), gpuCount, vcpus, ram, storage,
                             selected.hostnode, OsParam(os), "ComfyUI-" + NatToString(now));
      var (_, reply) := MakeRequest("POST", "client/deploy/single", true, createResponse);
      if reply.Exit? {
        return Exited(1);
      }
      serverId := reply.body.serverId;
      if !Truthy(serverId) {
        return Exited(1);
      }
      return Deployed(data, reply.body);
    }

    /** The first poll, from `from` on, that ends `wait_for_server_ready`: a running status or an exit. */
    static function FirstDecisive(polls: nat -> HttpResult<ServerStatus>, from: nat, count: nat): (r: Option<nat>)
      ensures r.Some? ==> from <= r.value < count && Decisive(polls(r.value))
      ensures r.Some? ==> forall m :: from <= m < r.value ==> !Decisive(polls(m))
      ensures r.None? ==> forall m :: from <= m < count ==> !Decisive(polls(m))
      decreases count - from
    {
      if from >= count then None
      else if Decisive(polls(from)) then Some(from)
      else FirstDecisive(polls, from + 1, count)
    }

    static predicate Decisive(p: HttpResult<ServerStatus>) {
      p.TransportError? || IsHttpError(p.status) || p.body.status == Some("running")
    }

    /**
     * `wait_for_server_ready`: poll `client/get/{server_id}` every 10 seconds while less
     * than `timeout` seconds have passed. A running status fills in ip, port (22 when
     * absent) and password and returns at once; a failed request exits the program.
     */
    method WaitForServerReady(timeout: int, polls: nat -> HttpResult<ServerStatus>)
      returns (r: WaitResult, elapsed: nat)
      modifies this`serverIp, this`serverPort, this`serverPassword
      ensures var first := FirstDecisive(polls, 0, PollBudget(timeout));
        && (first.None? ==> r == TimedOut && elapsed == PollInterval * PollBudget(timeout))
        && (first.Some? ==> elapsed == PollInterval * first.value)
        && (first.Some? && polls(first.value).Response? && !IsHttpError(polls(first.value).status) ==>
              r == Ready
              && serverIp == polls(first.value).body.ip
              && serverPort == Some(polls(first.value).body.port.GetOr(22))
              && serverPassword == polls(first.value).body.password)
        && (first.Some? && (polls(first.value).TransportError? || IsHttpError(polls(first.value).status)) ==>
              r == ExitedWhilePolling(1))
      ensures r != Ready ==>
        serverIp == old(serverIp) && serverPort == old(serverPort) && serverPassword == old(serverPassword)
    {
      elapsed := 0;
      var n: nat := 0;
      while elapsed < timeout
        invariant elapsed == PollInterval * n && n <= PollBudget(timeout)
        invariant forall m :: 0 <= m < n ==> !Decisive(polls(m))
        invariant serverIp == old(serverIp) && serverPort == old(serverPort) && serverPassword == old(serverPassword)
        decreases timeout - elapsed
      {
        var (_, reply) := MakeRequest("GET", "client/get/" + StrOrNone(serverId), true, polls(n));
        if reply.Exit? {
          FirstDecisiveAt(polls, PollBudget(timeout), n);
          return ExitedWhilePolling(reply.code), elapsed;
        }
        var status := reply.body.status.GetOr("");
        if status == "running" {
          serverIp := reply.body.ip;
          serverPort := Some(reply.body.port.GetOr(22));
          serverPassword := reply.body.password;
          FirstDecisiveAt(polls, PollBudget(timeout), n);
          return Ready, elapsed;
        }
        elapsed := elapsed + PollInterval;
        n := n + 1;
      }
      return TimedOut, elapsed;
    }

    static lemma FirstDecisiveAt(polls: nat -> HttpResult<ServerStatus>, count: nat, n: nat)
      requires n < count && Decisive(polls(n))
      requires forall m :: 0 <= m < n ==> !Decisive(polls(m))
      ensures FirstDecisive(polls, 0, count) == Some(n)
    {
    }

    /** The record `save_connection_info` writes. */
    function ConnectionInfo(): (info: map<string, Json>)
      reads this
      ensures info.Keys == {"server_id", "ip", "port", "username", "password", "comfyui_url"}
      ensures info["username"] == JStr("root")
      ensures info["ip"] == OptStr(serverIp) && info["port"] == OptInt(serverPort)
      ensures info["server_id"] == OptStr(serverId) && info["password"] == OptStr(serverPassword)
      ensures serverIp.Some? ==> info["comfyui_url"] == JStr(ServiceUrl(serverIp.value))
      ensures serverIp.None? ==> info["comfyui_url"] == JStr("http://None:8188")
    {
      assert serverIp.None? ==> "http://" + StrOrNone(serverIp) + ":8188" == "http://None:8188";
      map["server_id" := OptStr(serverId),
          "ip" := OptStr(serverIp),
          "port" := OptInt(serverPort),
          "username" := JStr("root"),
          "password" := OptStr(serverPassword),
          "comfyui_url" := JStr("http://" + StrOrNone(serverIp) + ":8188")]
    }

    /** The prefix every remote command is run with. */
    function SshPrefix(): string
      reads this
    {
      "sshpass -p '" + StrOrNone(serverPassword) + "' ssh -o StrictHostKeyChecking=no -p "
        + IntOrNone(serverPort) + " root@" + StrOrNone(serverIp)
    }

    /**
     * `setup_and_deploy_comfyui`: install sshpass when `which sshpass` fails, then run every
     * remote command in order through ssh; the `k`-th `os.system` returns `exitCodes(k)`,
     * and a failing command does not stop the ones after it.
     */
    method SetupAndDeployComfyUI(dockerImage: string, sshpassFound: bool, exitCodes: nat -> int)
      returns (issued: seq<string>, reports: seq<CommandReport>)
      ensures var cmds := RemoteCommands(dockerImage);
        && |reports| == |cmds|
        && (forall k :: 0 <= k < |cmds| ==> reports[k] == ReportFor(cmds[k], exitCodes(k)))
        && issued == (if sshpassFound then [] else [InstallSshpass]) + SshCommands(SshPrefix(), cmds)
    {
      var setup := if sshpassFound then [] else [InstallSshpass];
      var ran;
      ran, reports := RunCommands(SshPrefix(), RemoteCommands(dockerImage), exitCodes);
      issued := setup + ran;
    }

    /** The command loop of `setup_and_deploy_comfyui`, over any list of commands. */
    static method RunCommands(prefix: string, commands: seq<string>, exitCodes: nat -> int)
      returns (issued: seq<string>, reports: seq<CommandReport>)
      ensures |reports| == |commands|
      ensures forall k :: 0 <= k < |commands| ==> reports[k] == ReportFor(commands[k], exitCodes(k))
      ensures issued == SshCommands(prefix, commands)
    {
      issued, reports := [], [];
      var k := 0;
      while k < |commands|
        invariant 0 <= k <= |commands| && |reports| == k
        invariant forall m :: 0 <= m < k ==> reports[m] == ReportFor(commands[m], exitCodes(m))
        invariant issued == SshCommands(prefix, commands[..k])
      {
        var cmd := commands[k];
        var fullCmd := prefix + " '" + cmd + "'";
        issued := issued + [fullCmd];
        var result := exitCodes(k);
        if result != 0 {
          reports := reports + [Failed(result, Contains(cmd, "deploy.sh"))];
        } else {
          reports := reports + [Completed];
        }
        assert commands[..k + 1][..k] == commands[..k];
        k := k + 1;
      }
      assert commands[..k] == commands;
    }

    /**
     * `delete_server`: nothing is sent without a server id; otherwise one DELETE, whose
     * failure exits the program.
     */
    function DeleteServer(response: HttpResult<map<string, Json>>): (r: Option<(Request, Reply<map<string, Json>>)>)
      reads this
      ensures r.None? <==> !Truthy(serverId)
      ensures r.Some? ==> r.value.0 == Request(DELETE, ConsoleApiUrl + "/client/delete/" + serverId.value)
      ensures r.Some? ==> (r.value.1.Json? <==> response.Response? && !IsHttpError(response.status))
    {
      if !Truthy(serverId) then None
      else
        var (sent, reply) := MakeRequest("DELETE", "client/delete/" + serverId.value, true, response);
        Some((sent.value, reply))
    }
  }

  /** The ComfyUI address saved for a server. */
  function ServiceUrl(ip: string): string {
    "http://" + ip + ":8188"
  }

  /** The host part of a saved ComfyUI address, when it has the saved form. */
  function ServiceHost(url: string): Option<string> {
    if StartsWith(url, "http://") && EndsWith(url, ":8188") && |url| >= 12 then Some(url[7..|url| - 5])
    else None
  }

  /** The saved address names the saved ip. */
  lemma ServiceUrlRoundTrip(ip: string)
    ensures ServiceHost(ServiceUrl(ip)) == Some(ip)
  {
    var u := ServiceUrl(ip);
    assert u[..7] == "http://" && u[|u| - 5..] == ":8188";
    assert u[7..|u| - 5] == ip;
  }

  /** The full commands of the loop: each command single-quoted after the ssh prefix. */
  function SshCommands(prefix: string, cmds: seq<string>): (r: seq<string>)
    ensures |r| == |cmds|
    ensures forall k :: 0 <= k < |cmds| ==> r[k] == prefix + " '" + cmds[k] + "'"
  {
    if cmds == [] then [] else SshCommands(prefix, cmds[..|cmds| - 1]) + [prefix + " '" + cmds[|cmds| - 1] + "'"]
  }
}
