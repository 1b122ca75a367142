/**
 * The client configuration store and the outbound request of a tool call.
 * The store maps each configured client id to its backend address and site
 * (hospital) code; an empty or unknown client id falls back to one built-in
 * default. A tool call validates and builds its parameters, resolves the
 * caller's configuration, adds the site code under "HCode" unless the
 * parameters already hold one, and hands the address and parameters to the
 * transport.
 */
module ClientConfig {
  import opened Wrappers
  import opened Validation
  import Tools
  import Catalog

  /** Connection parameters of one client. */
  datatype Config = Config(baseUrl: string, hcode: string)

  /** The configuration every unconfigured client shares. */
  const DefaultConfig: Config := Config("http://edrak1.selfip.com:64384", "13745064")

  /** What is handed to the transport: the endpoint and its query parameters. */
  datatype Request = Request(url: string, params: Tools.Params)

  /**
   * configure_client's guards: the client id, then the base URL, then the site
   * code must be non-empty; the first empty one is reported.
   */
  function ValidateConfig(clientId: string, baseUrl: string, hcode: string): (r: Option<Arg>)
    ensures r.None? <==> clientId != "" && baseUrl != "" && hcode != ""
    ensures r == Some(ClientId) <==> clientId == ""
    ensures r == Some(BaseUrl) <==> clientId != "" && baseUrl == ""
    ensures r == Some(HCode) <==> clientId != "" && baseUrl != "" && hcode == ""
  {
    var required := [(ClientId, clientId), (BaseUrl, baseUrl), (HCode, hcode)];
    var r := FirstMissing(required);
    assert r.Some? ==> required[0].1 != "" ==> required[1].1 != "" ==> required[2].1 == "";
    assert r.None? ==> required[0].1 != "" && required[1].1 != "" && required[2].1 != "";
    r
  }

  /** The process-wide store of client configurations. */
  class ClientStore {
    var configs: map<string, Config>

    /** Only configure can write the store, so no entry has an empty id, address or site code. */
    ghost predicate Valid()
      reads this
    {
      && "" !in configs
      && forall id :: id in configs ==> configs[id].baseUrl != "" && configs[id].hcode != ""
    }

    constructor ()
      ensures Valid() && configs == map[]
    {
      configs := map[];
    }

    /**
     * get_client_config: the stored entry of a configured client, the default
     * for an empty or unknown id; always a usable configuration.
     */
    function Resolve(clientId: string): (c: Config)
      reads this
      ensures clientId == "" || clientId !in configs ==> c == DefaultConfig
      ensures clientId != "" && clientId in configs ==> c == configs[clientId]
      ensures Valid() ==> c.baseUrl != "" && c.hcode != ""
    {
      if clientId == "" || clientId !in configs then DefaultConfig else configs[clientId]
    }

    /**
     * configure_client: on a guard failure the store is unchanged; otherwise
     * the client's entry is inserted or overwritten (last write wins) and every
     * other client resolves as before.
     */
    method Configure(clientId: string, baseUrl: string, hcode: string) returns (r: Result<Config, ToolError>)
      requires Valid()
      modifies this
      ensures Valid()
      ensures r.Failure? <==> ValidateConfig(clientId, baseUrl, hcode).Some?
      ensures r.Failure? ==> r.error == Missing(ValidateConfig(clientId, baseUrl, hcode).value)
      ensures r.Failure? ==> configs == old(configs)
      ensures r.Success? ==> r.value == Config(baseUrl, hcode) && configs == old(configs)[clientId := r.value]
      ensures r.Success? ==> Resolve(clientId) == Config(baseUrl, hcode)
      ensures forall id :: id != clientId ==> Resolve(id) == old(Resolve(id))
    {
      match ValidateConfig(clientId, baseUrl, hcode)
      case Some(arg) =>
        r := Failure(Missing(arg));
      case None =>
        configs := configs[clientId := Config(baseUrl, hcode)];
        r := Success(Config(baseUrl, hcode));
    }

    /**
     * The request make_wikimed_request sends for the given parameters: the
     * address of the caller's resolved configuration, and the parameters with
     * the configured site code added under "HCode" only when absent; a site
     * code already present and every other parameter are kept as they are.
     */
    method MakeRequest(params: Tools.Params, clientId: string) returns (req: Request)
      ensures req.url == Resolve(clientId).baseUrl
      ensures req.params.Keys == params.Keys + {"HCode"}
      ensures "HCode" in params ==> req.params["HCode"] == params["HCode"]
      ensures "HCode" !in params ==> req.params["HCode"] == Resolve(clientId).hcode
      ensures forall k :: k in params && k != "HCode" ==> req.params[k] == params[k]
    {
      var config := Resolve(clientId);
      var sent := params;
      if "HCode" !in sent {
        sent := sent["HCode" := config.hcode];
      }
      req := Request(config.baseUrl, sent);
    }

    /**
     * One tool call up to the transport: a refused call makes no request and
     * reports the tool's own error; otherwise the request goes to the caller's
     * resolved address with the tool's parameters, its operation code, and the
     * caller's site code.
     */
    method Invoke(t: Catalog.Tool, clientId: string) returns (r: Result<Request, ToolError>)
      ensures r.Failure? <==> Catalog.Build(t).Failure?
      ensures r.Failure? ==> r.error == Catalog.Build(t).error
      ensures r.Success? ==> r.value.url == Resolve(clientId).baseUrl
      ensures r.Success? ==> r.value.params == Catalog.Build(t).value["HCode" := Resolve(clientId).hcode]
      ensures r.Success? ==> r.value.params["MType"] == Catalog.OpCode(t)
    {
      var built := Catalog.Build(t);
      match built
      case Failure(e) =>
        r := Failure(e);
      case Success(params) =>
        Catalog.BuildCarriesOpCode(t);
        var req := MakeRequest(params, clientId);
        r := Success(req);
    }
  }

  /**
   * A freshly configured client's list_doctors request goes to its own
   * address and carries its own site code and the list-doctors code.
   */
  method ConfigureThenListDoctors(clientId: string, baseUrl: string, hcode: string) returns (r: Result<Request, ToolError>)
    requires clientId != "" && baseUrl != "" && hcode != ""
    ensures r == Success(Request(baseUrl, map["MType" := "500", "HCode" := hcode]))
  {
    var store := new ClientStore();
    var configured := store.Configure(clientId, baseUrl, hcode);
    r := store.Invoke(Catalog.ListDoctors, clientId);
  }
}
