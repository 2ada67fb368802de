/** The standalone script: a smaller ServerDensity client that downloads
    the devices and services and creates or updates one device per
    contacted host, with the rule that picks the API token and the rule
    that picks the exit code after fact gathering. */
module Standalone {
  import opened PyValues
  import opened Api
  import opened Matching
  import opened Reconcile

  class ServerDensity {
    var devices: seq<Record>
    var services: seq<Record>
    /** Every request sent to the API, in order. */
    var log: seq<Request>

    const apiToken: Value
    /** The API: its answer to a request, given the requests before it. */
    const server: (seq<Request>, Request) -> Response
    /** `json.JSONEncoder().encode`. */
    const encode: Value -> Json

    constructor (apiToken: Value, server: (seq<Request>, Request) -> Response, encode: Value -> Json)
      ensures this.apiToken == apiToken && this.server == server && this.encode == encode
      ensures devices == [] && services == [] && log == []
    {
      this.apiToken := apiToken;
      this.server := server;
      this.encode := encode;
      devices := [];
      services := [];
      log := [];
    }

    /** `_request`: a POST of the marshalled `data` when it is non-empty,
        otherwise a GET; the reply's `message` as the error unless the
        status is 200. */
    method Request(path: string, data: Record) returns (r: Result<Value>)
      modifies this`log
      ensures log == old(log) + [StandaloneRequest(encode, apiToken, path, data)]
      ensures r == StandaloneReply(server(old(log), StandaloneRequest(encode, apiToken, path, data)))
    {
      var request: Api.Request;
      if |data| > 0 {
        var form := MarshalStandaloneForm(encode, data);
        request := Api.Request(POST, BaseUrl + path, apiToken, form);
      } else {
        request := Api.Request(GET, BaseUrl + path, apiToken, map[]);
      }
      var response := server(log, request);
      log := log + [request];
      if response.status != 200 {
        return Err(StandaloneFailure(response.content));
      }
      return Ok(response.content);
    }

    /** `_get_device_id`: the `_id` of the first device with that hostname,
        `False` when there is none. */
    method GetDeviceId(hostname: Value) returns (id: Value)
      ensures id == FindId(devices, DeviceKey(hostname))
    {
      id := Lookup(devices, DeviceKey(hostname));
    }

    /** `status`: download the devices, then the services. */
    method Status() returns (r: Result<()>)
      modifies this`devices, this`services, this`log
      ensures old(log) <= log && ReadsOnly(log, |old(log)|)
      ensures var first := StandaloneRequest(encode, apiToken, "inventory/devices", map[]);
              var second := StandaloneRequest(encode, apiToken, "inventory/services", map[]);
              var listed := StandaloneReply(server(old(log), first));
              && |log| > |old(log)| && log[|old(log)|] == first
              && (r.Ok? ==>
                    && log == old(log) + [first, second]
                    && listed.Ok? && AsRecords(listed.value) == Ok(devices)
                    && var more := StandaloneReply(server(old(log) + [first], second));
                       more.Ok? && AsRecords(more.value) == Ok(services))
    {
      var listed := Request("inventory/devices", map[]);
      if listed.Err? {
        return Err(listed.error);
      }
      var records := AsRecords(listed.value);
      if records.Err? {
        return Err(records.error);
      }
      devices := records.value;
      listed := Request("inventory/services", map[]);
      if listed.Err? {
        return Err(listed.error);
      }
      records := AsRecords(listed.value);
      if records.Err? {
        return Err(records.error);
      }
      services := records.value;
      return Ok(());
    }

    /** `ensure_host`: one POST of the device data, to the collection when
        no device has the hostname and to the device otherwise; there is no
        force check. */
    method EnsureHost(hostname: string, args: Record) returns (r: Result<Value>)
      modifies this`log
      ensures var id := FindId(devices, DeviceKey(Str(hostname)));
        && (Truthy(id) && !id.Str? ==> r == Err(Raised(TypeError)) && log == old(log))
        && (!Truthy(id) || id.Str? ==>
              var path := if Truthy(id) then "inventory/devices/" + id.s else "inventory/devices";
              var request := StandaloneRequest(encode, apiToken, path, DeviceData(hostname, args));
              && log == old(log) + [request]
              && request.verb == POST
              && request.form == StandaloneForm(encode, DeviceData(hostname, args))
              && r == StandaloneReply(server(old(log), request)))
    {
      var data := DeviceData(hostname, args);
      assert "hostname" in data;
      var id := GetDeviceId(Str(hostname));
      var path: string;
      if !Truthy(id) {
        path := "inventory/devices";
      } else {
        if !id.Str? {
          return Err(Raised(TypeError));
        }
        path := "inventory/devices/" + id.s;
      }
      r := Request(path, data);
    }
  }

  const TokenVariable: string := "SD_API_TOKEN"

  /** The API token: the command-line option when it is set, otherwise
      `sd_api_token` of the first inventory host (there must be one),
      otherwise the environment variable, otherwise an error. */
  function ResolveToken(option: Value, hostVars: seq<Record>, env: map<string, string>): (r: Result<Value>)
    ensures Truthy(option) ==> r == Ok(option)
    ensures !Truthy(option) && |hostVars| == 0 ==> r == Err(Raised(IndexError))
    ensures r.Ok? <==> Truthy(option) || (|hostVars| > 0 && (Truthy(Get(hostVars[0], "sd_api_token")) || TokenVariable in env))
    ensures r.Ok? && !Truthy(option) ==>
              if Truthy(Get(hostVars[0], "sd_api_token")) then r.value == Get(hostVars[0], "sd_api_token")
              else r.value == Str(env[TokenVariable])
    ensures r.Err? && |hostVars| > 0 ==> r.error == AnsibleError(Str("Unable to load " + TokenVariable))
  {
    if Truthy(option) then Ok(option)
    else if |hostVars| == 0 then Err(Raised(IndexError))
    else
      var fromHost := Get(hostVars[0], "sd_api_token");
      if Truthy(fromHost) then Ok(fromHost)
      else if TokenVariable in env then Ok(Str(env[TokenVariable]))
      else Err(AnsibleError(Str("Unable to load " + TokenVariable)))
  }

  /** Only the first host's variables are consulted. */
  lemma TokenFromFirstHost(option: Value, vars: Record, rest1: seq<Record>, rest2: seq<Record>, env: map<string, string>)
    ensures ResolveToken(option, [vars] + rest1, env) == ResolveToken(option, [vars] + rest2, env)
  {
  }

  /** A contacted host's result counts as failed when it says so or its
      return code (0 when absent) is not 0. */
  predicate Failed(result: Record)
  {
    "failed" in result || !PyEq(GetOr(result, "rc", Int(0)), Int(0))
  }

  /** The exit code after gathering facts: 2 when a contacted host failed,
      else 3 when some host was unreachable, else none (the script goes
      on). */
  function ExitCode(contacted: map<string, Record>, dark: Value): (code: Option<int>)
    ensures code == Some(2) <==> exists h :: h in contacted && Failed(contacted[h])
    ensures code == Some(3) <==> (forall h :: h in contacted ==> !Failed(contacted[h])) && Truthy(dark)
    ensures code == None <==> (forall h :: h in contacted ==> !Failed(contacted[h])) && !Truthy(dark)
  {
    if exists h :: h in contacted && Failed(contacted[h]) then Some(2)
    else if Truthy(dark) then Some(3)
    else None
  }

  /** The `for result in contacted.values()` loop with its early exit. */
  method ExitCodeOf(contacted: map<string, Record>, dark: Value) returns (code: Option<int>)
    ensures code == ExitCode(contacted, dark)
  {
    var hosts := contacted.Keys;
    while hosts != {}
      invariant hosts <= contacted.Keys
      invariant forall h :: h in contacted && h !in hosts ==> !Failed(contacted[h])
      decreases hosts
    {
      var h :| h in hosts;
      if Failed(contacted[h]) {
        return Some(2);
      }
      hosts := hosts - {h};
    }
    if Truthy(dark) {
      return Some(3);
    }
    return None;
  }

  /** A result fails exactly when it says so or carries an `rc` that is
      not a number equal to 0 (`False`, `0` and `0.0` all pass). */
  lemma FailedByCode(result: Record)
    ensures Failed(result) <==>
              "failed" in result || ("rc" in result && !(IsNumber(result["rc"]) && NumberOf(result["rc"]) == 0.0))
  {
    if "rc" !in result {
      assert GetOr(result, "rc", Int(0)) == Int(0);
    }
  }
}
