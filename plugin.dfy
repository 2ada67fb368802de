/** The Ansible action plugin: an object that downloads the account's
    devices, services, alerts, users and notifications once, then brings
    the account in line with the inventory, creating what is missing,
    updating what exists when forced, and optionally deleting alerts no
    inventory declaration matched. */
module Plugin {
  import opened PyValues
  import opened Api
  import opened Matching
  import opened Declarations
  import opened Reconcile

  /** What a cache file holds: the five collections `cache_update` wrote. */
  datatype Snapshot = Snapshot(
    devices: seq<Record>, services: seq<Record>, alerts: seq<Record>,
    users: seq<Record>, notifications: seq<Record>)

  datatype Outcome = Skipped | Completed

  /** A host of the play with its inventory variables. */
  datatype Host = Host(name: string, vars: Record)

  /** The text of a failed `_request` result, or success. */
  function Void(r: Result<Value>): (v: Result<()>)
    ensures v.Ok? <==> r.Ok?
    ensures r.Err? ==> v.error == r.error
  {
    if r.Ok? then Ok(()) else Err(r.error)
  }

  /** The cache files once `cache_reset` has removed the file `name`. */
  function WithoutCache(files: map<string, Snapshot>, name: string): (f: map<string, Snapshot>)
    ensures |name| > 0 ==> name !in f
    ensures |name| == 0 ==> f == files
    ensures forall k :: k in files && k != name ==> k in f && f[k] == files[k]
    ensures f.Keys <= files.Keys
  {
    if |name| > 0 then files - {name} else files
  }

  /** The variables of group `all` only gain entries. */
  predicate Extends(before: map<string, Value>, after: map<string, Value>)
  {
    forall k :: k in before ==> k in after && after[k] == before[k]
  }

  /** What a `list_*` call leaves: the local copy when there was one,
      otherwise the listing memoised under `key`. */
  predicate Fetched(before: seq<Record>, now: seq<Record>, vars: map<string, Value>, key: string)
  {
    && (before != [] ==> now == before)
    && (before == [] ==> key in vars && AsRecords(vars[key]) == Ok(now))
  }

  lemma ExtendsTrans(a: map<string, Value>, b: map<string, Value>, c: map<string, Value>)
    requires Extends(a, b) && Extends(b, c)
    ensures Extends(a, c)
  {
  }

  /** A listing stays fetched while the memo only gains entries. */
  lemma FetchedKept(before: seq<Record>, now: seq<Record>, vars: map<string, Value>, later: map<string, Value>, key: string)
    requires Fetched(before, now, vars, key) && Extends(vars, later)
    ensures Fetched(before, now, later, key)
  {
  }

  /** The candidate loop of `_get_alert_id`. */
  method CollectCandidates(alerts: seq<Record>, crit: Record) returns (cands: seq<nat>)
    ensures cands == Candidates(alerts, crit)
  {
    cands := [];
    var i := 0;
    while i < |alerts|
      invariant 0 <= i <= |alerts|
      invariant cands == Candidates(alerts[..i], crit)
    {
      assert alerts[..i + 1][..i] == alerts[..i];
      if !Marked(alerts[i]) && Matches(alerts[i], crit) {
        cands := cands + [i];
      }
      i := i + 1;
    }
    assert alerts[..i] == alerts;
  }

  /** The scoring loop of `_get_alert_id` over several candidates: a hit
      raises `check_level` above `level`, so the last hit is kept. */
  method ScoreCandidates(alerts: seq<Record>, cands: seq<nat>, comparison: Value, value: Value) returns (found: nat)
    requires ValidPositions(alerts, cands) && |cands| > 1
    ensures found == AsWrittenChoice(alerts, cands, comparison, value, |cands|)
  {
    var level := -1;
    var check := 0;
    var k := 0;
    found := 0;
    while k < |cands|
      invariant 0 <= k <= |cands|
      invariant k == 0 ==> level == -1 && check == 0
      invariant k > 0 ==> level == check && found == AsWrittenChoice(alerts, cands, comparison, value, k)
    {
      var a := alerts[cands[k]];
      ChoiceStep(alerts, cands, comparison, value, k);
      if PyEq(Get(a, "comparison"), comparison) {
        check := check + 1;
      }
      if PyEq(Get(a, "value"), value) {
        check := check + 2;
      }
      if check > level {
        level := check;
        found := k;
      }
      k := k + 1;
    }
  }

  /** The module arguments: `complex_args`, then the `key=value` pairs of
      the argument string, which override them. */
  function Arguments(complexArgs: Record, kvArgs: map<string, string>): (args: Record)
    ensures args.Keys == complexArgs.Keys + kvArgs.Keys
    ensures forall k :: k in kvArgs ==> args[k] == Str(kvArgs[k])
    ensures forall k :: k in complexArgs && k !in kvArgs ==> args[k] == complexArgs[k]
  {
    complexArgs + map k | k in kvArgs :: Str(kvArgs[k])
  }

  const ApiTokenRequired: string := "'api_token' is a required argument."

  /** The cache file name given by the `cache` argument; "" for none. */
  function CacheArg(v: Value): (name: string)
    ensures v.Str? ==> name == v.s
    ensures !v.Str? ==> name == ""
  {
    if v.Str? then v.s else ""
  }

  /** What the loop `for name in alerts: vv('...' + name); alerts.get(name)`
      raises on a truthy value that is not a dict: iterating a number is a
      TypeError, so is concatenating a list's non-string first item, and
      `.get` on a string or a list is an AttributeError. */
  function NamedNotADict(v: Value): (e: PyException)
    ensures e == AttributeError <==> v.Str? || (v.List? && |v.items| > 0 && v.items[0].Str?)
  {
    if v.Str? then AttributeError
    else if v.List? && |v.items| > 0 && v.items[0].Str? then AttributeError
    else TypeError
  }

  /** The inventory variables of the play's hosts, in order. */
  function VarsOf(hosts: seq<Host>): (vars: seq<Record>)
    ensures |vars| == |hosts|
    ensures forall i :: 0 <= i < |hosts| ==> vars[i] == hosts[i].vars
  {
    seq(|hosts|, i requires 0 <= i < |hosts| => hosts[i].vars)
  }

  /** One more host for the host loop. */
  lemma GatherNext(hosts: seq<Host>, i: nat, d: Decls)
    requires i < |hosts| && Gather(VarsOf(hosts[..i])) == Ok(d)
    ensures Gather(VarsOf(hosts[..i + 1])) == AddHost(d, hosts[i].vars)
  {
    assert VarsOf(hosts[..i + 1])[..i] == VarsOf(hosts[..i]);
  }

  class ActionModule {
    // The plugin object's own state.
    var apiToken: Value
    var devices: seq<Record>
    var services: seq<Record>
    var alerts: seq<Record>
    var users: seq<Record>
    var notifications: seq<Record>
    var forceUpdate: Value
    /** The cache file's name; "" when there is none. */
    var cacheName: string

    // The parts of the world it changes.
    /** The cache files that exist, by name. */
    var files: map<string, Snapshot>
    /** The variables of inventory group `all`, which memoise downloads. */
    var allVars: map<string, Value>
    /** `sd_agent_key` as set on inventory hosts. */
    var agentKeys: map<string, Value>
    /** Every request sent to the API, in order. */
    var log: seq<Request>

    /** The API: its answer to a request, given the requests before it. */
    const server: (seq<Request>, Request) -> Response
    /** `json.JSONEncoder().encode`. */
    const encode: Value -> Json
    /** The inventory's host names. */
    const inventoryHosts: set<string>
    /** The content of `sd_notifications.json` beside the inventory, if it exists. */
    const notificationsFile: Option<Value>

    constructor (server: (seq<Request>, Request) -> Response, encode: Value -> Json,
                 inventoryHosts: set<string>, notificationsFile: Option<Value>,
                 files: map<string, Snapshot>, allVars: map<string, Value>)
      ensures this.server == server && this.encode == encode
      ensures this.inventoryHosts == inventoryHosts && this.notificationsFile == notificationsFile
      ensures this.files == files && this.allVars == allVars
      ensures apiToken == Null && forceUpdate == Bool(false) && cacheName == ""
      ensures devices == [] && services == [] && alerts == [] && users == [] && notifications == []
      ensures agentKeys == map[] && log == []
    {
      this.server := server;
      this.encode := encode;
      this.inventoryHosts := inventoryHosts;
      this.notificationsFile := notificationsFile;
      this.files := files;
      this.allVars := allVars;
      apiToken := Null;
      forceUpdate := Bool(false);
      cacheName := "";
      devices := [];
      services := [];
      alerts := [];
      users := [];
      notifications := [];
      agentKeys := map[];
      log := [];
    }

    function Current(): Snapshot
      reads this
    {
      Snapshot(devices, services, alerts, users, notifications)
    }

    /** `_request`: a POST of the marshalled `data` when it is non-empty,
        otherwise `verb` without a body; an error built from the reply
        unless the status is 200. */
    method Request(path: string, data: Record, verb: Method) returns (r: Result<Value>)
      modifies this`log
      ensures log == old(log) + [PluginRequest(encode, apiToken, path, data, verb)]
      ensures r == PluginReply(server(old(log), PluginRequest(encode, apiToken, path, data, verb)))
    {
      var form: map<string, string> := map[];
      var v := verb;
      if |data| > 0 {
        v := POST;
        form := MarshalPluginForm(encode, data);
      }
      var request := Api.Request(v, BaseUrl + path, apiToken, form);
      var response := server(log, request);
      log := log + [request];
      if response.status != 200 {
        var e := BuildPluginFailure(response.content);
        return Err(e);
      }
      return Ok(response.content);
    }

    method GetDeviceId(hostname: Value) returns (id: Value)
      ensures id == FindId(devices, DeviceKey(hostname))
    {
      id := Lookup(devices, DeviceKey(hostname));
    }

    method GetServiceId(name: Value) returns (id: Value)
      ensures id == FindId(services, ServiceKey(name))
    {
      id := Lookup(services, ServiceKey(name));
    }

    method GetUserId(login: Value) returns (id: Value)
      ensures id == FindId(users, UserKey(login))
    {
      id := Lookup(users, UserKey(login));
    }

    method GetNotificationId(kind: Value, name: Value) returns (id: Value)
      ensures id == FindId(notifications, NotificationKey(kind, name))
    {
      id := Lookup(notifications, NotificationKey(kind, name));
    }

    /** `_get_alert_id`: collect the unmarked alerts matching the natural
        key, pick one by the scoring loop, mark it and return its `_id`. */
    method GetAlertId(subjectType: Value, subjectId: Value, section: Value, field: Value,
                      comparison: Value, value: Value) returns (id: Value)
      modifies this`alerts
      ensures Match(id, alerts) == AlertMatch(old(alerts), AlertKey(subjectType, subjectId, section, field), comparison, value)
    {
      var crit := AlertKey(subjectType, subjectId, section, field);
      ghost var m := AlertMatch(alerts, crit, comparison, value);
      var cands := CollectCandidates(alerts, crit);
      if |cands| == 0 {
        assert m == Match(Bool(false), alerts);
        return Bool(false);
      }
      var found := 0;
      if |cands| > 1 {
        found := ScoreCandidates(alerts, cands, comparison, value);
      }
      assert found == AsWrittenChoice(alerts, cands, comparison, value, |cands|);
      var pos := cands[found];
      var a := alerts[pos];
      if |a| > 0 {
        assert m == Match(Get(a, "_id"), alerts[pos := Mark(a)]);
        alerts := alerts[pos := Mark(a)];
        return Get(a, "_id");
      }
      assert m == Match(Bool(false), alerts);
      return Bool(false);
    }

    /** The recipients loop of `ensure_alert`. */
    method Recipients(notify: Value) returns (r: Result<seq<Value>>)
      ensures r == RecipientList(notify, users, notifications)
    {
      if !Truthy(notify) {
        return Ok([]);
      }
      if !notify.List? {
        return Err(Raised(TypeError));
      }
      var items := notify.items;
      var recipients: seq<Value> := [];
      var i := 0;
      while i < |items|
        invariant 0 <= i <= |items|
        invariant RecipientsOf(items[..i], users, notifications) == Ok(recipients)
      {
        assert items[..i + 1][..i] == items[..i];
        var item := items[i];
        if !item.Dict? {
          RecipientsErrorPersists(items, i + 1, users, notifications);
          return Err(Raised(TypeError));
        }
        if "type" !in item.fields || "name" !in item.fields {
          RecipientsErrorPersists(items, i + 1, users, notifications);
          return Err(Raised(KeyError));
        }
        var kind, name := item.fields["type"], item.fields["name"];
        var id: Value;
        var actions: Value;
        if PyEq(kind, Str("user")) {
          id := GetUserId(name);
          if "actions" !in item.fields {
            RecipientsErrorPersists(items, i + 1, users, notifications);
            return Err(Raised(KeyError));
          }
          actions := item.fields["actions"];
        } else {
          id := GetNotificationId(kind, name);
          actions := Null;
        }
        if Truthy(id) {
          recipients := recipients + [Dict(RecipientDict(kind, id, actions))];
        }
        i := i + 1;
      }
      assert items[..i] == items;
      return Ok(recipients);
    }

    /** The removal loop of `ensure_host`, which removes from the list it
        iterates. */
    method RemoveOldDevices(hostname: Value)
      modifies this`devices
      ensures devices == RemoveWhileIterating(old(devices), hostname, 0)
    {
      var i := 0;
      while i < |devices|
        invariant RemoveWhileIterating(old(devices), hostname, 0) == RemoveWhileIterating(devices, hostname, i)
        decreases |devices| - i
      {
        if PyEq(Get(devices[i], "hostname"), hostname) {
          devices := RemoveFirst(devices, devices[i]);
        }
        i := i + 1;
      }
    }

    /** `cache_update`: write the collections to the cache file when there
        is one and `force` is set or the file still exists. */
    method CacheUpdate(force: bool)
      modifies this`files
      ensures |cacheName| > 0 && (force || cacheName in old(files)) ==> files == old(files)[cacheName := Current()]
      ensures !(|cacheName| > 0 && (force || cacheName in old(files))) ==> files == old(files)
    {
      if |cacheName| > 0 && (force || cacheName in files) {
        files := files[cacheName := Current()];
      }
    }

    /** `cache_reset`: delete the cache file. */
    method CacheReset()
      modifies this`files
      ensures files == WithoutCache(old(files), cacheName)
    {
      if |cacheName| > 0 && cacheName in files {
        files := files - {cacheName};
      }
    }

    /** `_list_objects`: the objects memoised in the `all` group's
        variables, downloaded and memoised when absent. */
    method ListObjects(kind: string, path: string) returns (r: Result<(bool, Value)>)
      modifies this`log, this`allVars
      ensures var key := "_serverdensity_" + kind;
              var request := PluginRequest(encode, apiToken, path, map[], GET);
              if key in old(allVars) then
                r == Ok((false, old(allVars)[key])) && log == old(log) && allVars == old(allVars)
              else
                log == old(log) + [request] &&
                match PluginReply(server(old(log), request))
                case Ok(v) => r == Ok((true, v)) && allVars == old(allVars)[key := v]
                case Err(e) => r == Err(e) && allVars == old(allVars)
    {
      var key := "_serverdensity_" + kind;
      if key !in allVars {
        var objects := Request(path, map[], GET);
        if objects.Err? {
          return Err(objects.error);
        }
        allVars := allVars[key := objects.value];
        return Ok((true, objects.value));
      }
      return Ok((false, allVars[key]));
    }

    /** `_list_devices_agent_key`. */
    method ListDevicesAgentKey() returns (r: Result<()>)
      modifies this`agentKeys
      ensures var keys := AgentKeys(old(agentKeys), devices, inventoryHosts);
              (keys.Ok? ==> r == Ok(()) && agentKeys == keys.value) && (keys.Err? ==> r == Err(keys.error))
    {
      var i := 0;
      while i < |devices|
        invariant 0 <= i <= |devices|
        invariant AgentKeys(old(agentKeys), devices[..i], inventoryHosts) == Ok(agentKeys)
      {
        assert devices[..i + 1][..i] == devices[..i];
        var name := Get(devices[i], "name");
        if Unhashable(name) {
          AgentKeysErrorPersists(old(agentKeys), devices, inventoryHosts, i + 1);
          return Err(Raised(TypeError));
        }
        if name.Str? && name.s in inventoryHosts {
          agentKeys := agentKeys[name.s := Get(devices[i], "agentKey")];
        }
        i := i + 1;
      }
      assert devices[..i] == devices;
      return Ok(());
    }

    method ListDevices() returns (r: Result<()>)
      modifies this`devices, this`log, this`allVars, this`agentKeys
      ensures old(log) <= log && ReadsOnly(log, |old(log)|)
      ensures old(devices) != [] ==> r == Ok(()) && devices == old(devices) && log == old(log)
      ensures old(devices) == [] && r.Ok? ==>
                "_serverdensity_devices" in allVars && AsRecords(allVars["_serverdensity_devices"]) == Ok(devices)
      ensures Extends(old(allVars), allVars)
      ensures old(devices) == [] && "_serverdensity_devices" !in old(allVars) && r.Ok? ==>
                Ok(agentKeys) == AgentKeys(old(agentKeys), devices, inventoryHosts)
      ensures !(old(devices) == [] && "_serverdensity_devices" !in old(allVars)) ==> agentKeys == old(agentKeys)
    {
      if |devices| == 0 {
        assert "_serverdensity_" + "devices" == "_serverdensity_devices";
        var listed := ListObjects("devices", "inventory/devices");
        if listed.Err? {
          return Err(listed.error);
        }
        var records := AsRecords(listed.value.1);
        if records.Err? {
          return Err(records.error);
        }
        devices := records.value;
        if listed.value.0 {
          r := ListDevicesAgentKey();
          return;
        }
      }
      return Ok(());
    }

    method ListServices() returns (r: Result<()>)
      modifies this`services, this`log, this`allVars
      ensures old(log) <= log && ReadsOnly(log, |old(log)|)
      ensures old(services) != [] ==> r == Ok(()) && services == old(services) && log == old(log)
      ensures old(services) == [] && r.Ok? ==>
                "_serverdensity_services" in allVars && AsRecords(allVars["_serverdensity_services"]) == Ok(services)
      ensures Extends(old(allVars), allVars)
    {
      if |services| == 0 {
        assert "_serverdensity_" + "services" == "_serverdensity_services";
        var listed := ListObjects("services", "inventory/services");
        if listed.Err? {
          return Err(listed.error);
        }
        var records := AsRecords(listed.value.1);
        if records.Err? {
          return Err(records.error);
        }
        services := records.value;
      }
      return Ok(());
    }

    method ListAlerts() returns (r: Result<()>)
      modifies this`alerts, this`log, this`allVars
      ensures old(log) <= log && ReadsOnly(log, |old(log)|)
      ensures old(alerts) != [] ==> r == Ok(()) && alerts == old(alerts) && log == old(log)
      ensures old(alerts) == [] && r.Ok? ==>
                "_serverdensity_alerts" in allVars && AsRecords(allVars["_serverdensity_alerts"]) == Ok(alerts)
      ensures Extends(old(allVars), allVars)
    {
      if |alerts| == 0 {
        assert "_serverdensity_" + "alerts" == "_serverdensity_alerts";
        var listed := ListObjects("alerts", AlertConfigs);
        if listed.Err? {
          return Err(listed.error);
        }
        var records := AsRecords(listed.value.1);
        if records.Err? {
          return Err(records.error);
        }
        alerts := records.value;
      }
      return Ok(());
    }

    method ListUsers() returns (r: Result<()>)
      modifies this`users, this`log, this`allVars
      ensures old(log) <= log && ReadsOnly(log, |old(log)|)
      ensures old(users) != [] ==> r == Ok(()) && users == old(users) && log == old(log)
      ensures old(users) == [] && r.Ok? ==>
                "_serverdensity_users" in allVars && AsRecords(allVars["_serverdensity_users"]) == Ok(users)
      ensures Extends(old(allVars), allVars)
    {
      if |users| == 0 {
        assert "_serverdensity_" + "users" == "_serverdensity_users";
        var listed := ListObjects("users", "users/users");
        if listed.Err? {
          return Err(listed.error);
        }
        var records := AsRecords(listed.value.1);
        if records.Err? {
          return Err(records.error);
        }
        users := records.value;
      }
      return Ok(());
    }

    /** `list_notifications`: read from `sd_notifications.json` beside the
        inventory, never from the API. */
    method ListNotifications() returns (r: Result<()>)
      modifies this`notifications
      ensures old(notifications) != [] || notificationsFile.None? ==> r == Ok(()) && notifications == old(notifications)
      ensures old(notifications) == [] && notificationsFile.Some? ==>
                var records := AsRecords(notificationsFile.value);
                (records.Ok? ==> r == Ok(()) && notifications == records.value) &&
                (records.Err? ==> r == Err(records.error))
    {
      if |notifications| == 0 && notificationsFile.Some? {
        var records := AsRecords(notificationsFile.value);
        if records.Err? {
          return Err(records.error);
        }
        notifications := records.value;
      }
      return Ok(());
    }

    /** `list_all`: load everything from the cache file when it exists,
        otherwise download what is missing and write the cache. */
    method ListAll() returns (r: Result<()>)
      modifies this`devices, this`services, this`alerts, this`users, this`notifications
      modifies this`log, this`allVars, this`agentKeys, this`files
      ensures old(log) <= log && ReadsOnly(log, |old(log)|)
      ensures |cacheName| > 0 && cacheName in old(files) ==>
                log == old(log) && files == old(files) && allVars == old(allVars) &&
                (r.Ok? ==> Current() == old(files)[cacheName] &&
                           Ok(agentKeys) == AgentKeys(old(agentKeys), devices, inventoryHosts))
      ensures !(|cacheName| > 0 && cacheName in old(files)) && r.Ok? && |cacheName| > 0 ==>
                cacheName in files && files[cacheName] == Current()
      ensures !(|cacheName| > 0 && cacheName in old(files)) ==>
                DownloadedAll(old(Current()), old(allVars), old(agentKeys), old(files), r)
    {
      if |cacheName| > 0 && cacheName in files {
        r := LoadCache();
      } else {
        r := DownloadAll();
      }
    }

    /** `list_all` with a cache file: the local copies from the file, the
        agent keys from its devices. */
    method LoadCache() returns (r: Result<()>)
      requires |cacheName| > 0 && cacheName in files
      modifies this`devices, this`services, this`alerts, this`users, this`notifications, this`agentKeys
      ensures r.Ok? ==> Current() == files[cacheName] &&
                        Ok(agentKeys) == AgentKeys(old(agentKeys), devices, inventoryHosts)
    {
      var cache := files[cacheName];
      devices := cache.devices;
      r := ListDevicesAgentKey();
      if r.Err? {
        return;
      }
      services := cache.services;
      alerts := cache.alerts;
      users := cache.users;
      notifications := cache.notifications;
      return Ok(());
    }

    /** `list_all` without a cache file: download every collection, then
        write the cache. */
    method DownloadAll() returns (r: Result<()>)
      modifies this`devices, this`services, this`alerts, this`users, this`notifications
      modifies this`log, this`allVars, this`agentKeys, this`files
      ensures old(log) <= log && ReadsOnly(log, |old(log)|)
      ensures r.Ok? && |cacheName| > 0 ==> cacheName in files && files[cacheName] == Current()
      ensures DownloadedAll(old(Current()), old(allVars), old(agentKeys), old(files), r)
    {
      ghost var l0 := log;
      r := ListInventory();
      if r.Err? { return; }
      ghost var l1 := log;
      ghost var v1 := allVars;
      r := ListAccount();
      LogGrows(l0, l1, log);
      ExtendsTrans(old(allVars), v1, allVars);
      if r.Err? { return; }
      FetchedKept(old(devices), devices, v1, allVars, "_serverdensity_devices");
      FetchedKept(old(services), services, v1, allVars, "_serverdensity_services");
      CacheUpdate(true);
      return Ok(());
    }

    /** The first half of the download: devices, with their agent keys
        when freshly listed, then services. */
    method ListInventory() returns (r: Result<()>)
      modifies this`devices, this`services, this`log, this`allVars, this`agentKeys
      ensures old(log) <= log && ReadsOnly(log, |old(log)|)
      ensures Extends(old(allVars), allVars)
      ensures r.Ok? ==> Fetched(old(devices), devices, allVars, "_serverdensity_devices")
      ensures r.Ok? ==> Fetched(old(services), services, allVars, "_serverdensity_services")
      ensures old(devices) == [] && "_serverdensity_devices" !in old(allVars) && r.Ok? ==>
                Ok(agentKeys) == AgentKeys(old(agentKeys), devices, inventoryHosts)
      ensures !(old(devices) == [] && "_serverdensity_devices" !in old(allVars)) ==> agentKeys == old(agentKeys)
    {
      ghost var l0 := log;
      r := ListDevices();
      if r.Err? { return; }
      ghost var l1 := log;
      ghost var v1 := allVars;
      r := ListServices();
      LogGrows(l0, l1, log);
      ExtendsTrans(old(allVars), v1, allVars);
      if r.Err? { return; }
      FetchedKept(old(devices), devices, v1, allVars, "_serverdensity_devices");
    }

    /** The second half of the download: alerts, users, notifications. */
    method ListAccount() returns (r: Result<()>)
      modifies this`alerts, this`users, this`notifications, this`log, this`allVars
      ensures old(log) <= log && ReadsOnly(log, |old(log)|)
      ensures Extends(old(allVars), allVars)
      ensures r.Ok? ==> Fetched(old(alerts), alerts, allVars, "_serverdensity_alerts")
      ensures r.Ok? ==> Fetched(old(users), users, allVars, "_serverdensity_users")
      ensures r.Ok? && (old(notifications) != [] || notificationsFile.None?) ==> notifications == old(notifications)
      ensures r.Ok? && old(notifications) == [] && notificationsFile.Some? ==>
                AsRecords(notificationsFile.value) == Ok(notifications)
    {
      ghost var l0 := log;
      r := ListAlerts();
      if r.Err? { return; }
      ghost var l1 := log;
      ghost var v1 := allVars;
      r := ListUsers();
      LogGrows(l0, l1, log);
      ExtendsTrans(old(allVars), v1, allVars);
      if r.Err? { return; }
      FetchedKept(old(alerts), alerts, v1, allVars, "_serverdensity_alerts");
      r := ListNotifications();
    }

    /** What downloading every collection left, given the collections, the
        `all` group's variables, the agent keys and the cache files before. */
    ghost predicate DownloadedAll(before: Snapshot, varsBefore: map<string, Value>, keysBefore: map<string, Value>,
                                  filesBefore: map<string, Snapshot>, r: Result<()>)
      reads this
    {
      var listed := before.devices == [] && "_serverdensity_devices" !in varsBefore;
      && Extends(varsBefore, allVars)
      && (r.Err? || |cacheName| == 0 ==> files == filesBefore)
      && (r.Ok? ==>
            && Fetched(before.devices, devices, allVars, "_serverdensity_devices")
            && Fetched(before.services, services, allVars, "_serverdensity_services")
            && Fetched(before.alerts, alerts, allVars, "_serverdensity_alerts")
            && Fetched(before.users, users, allVars, "_serverdensity_users")
            && (before.notifications != [] || notificationsFile.None? ==> notifications == before.notifications)
            && (before.notifications == [] && notificationsFile.Some? ==>
                  AsRecords(notificationsFile.value) == Ok(notifications))
            && (listed ==> Ok(agentKeys) == AgentKeys(keysBefore, devices, inventoryHosts))
            && (!listed ==> agentKeys == keysBefore)
            && (|cacheName| > 0 ==> files == filesBefore[cacheName := Current()]))
    }

    /** `ensure_host`: create the device when no inventory device has its
        hostname, update it when one does and updates are forced; then
        replace the local copies and hand the agent key to the inventory. */
    method EnsureHost(hostname: string, args: Record) returns (r: Result<()>)
      modifies this`devices, this`log, this`files, this`agentKeys
      ensures old(log) <= log && NoDeletes(log, |old(log)|)
      ensures !Truthy(forceUpdate) ==> CreatesOnly(log, |old(log)|)
      ensures HostEnsured(hostname, args, old(log), old(devices), old(files), old(agentKeys), r)
    {
      var id := GetDeviceId(Str(hostname));
      ghost var t := Target("inventory/devices", id, forceUpdate);
      if !Truthy(id) {
        assert t == Ok(Some("inventory/devices"));
        CacheReset();
        r := SendDevice(hostname, args, "inventory/devices", false);
        return;
      }
      if !Truthy(forceUpdate) {
        assert t == Ok(None);
        return Ok(());
      }
      if !id.Str? {
        assert t == Err(Raised(TypeError));
        return Err(Raised(TypeError));
      }
      var path := "inventory/devices/" + id.s;
      assert path == "inventory/devices" + "/" + id.s;
      assert t == Ok(Some(path));
      assert path != "inventory/devices";
      r := SendDevice(hostname, args, path, true);
    }

    /** What `ensure_host` did, given the log, the devices, the cache files
        and the agent keys before it. */
    ghost predicate HostEnsured(hostname: string, args: Record, sent: seq<Request>, before: seq<Record>,
                                filesBefore: map<string, Snapshot>, keysBefore: map<string, Value>, r: Result<()>)
      reads this
    {
      var t := Target("inventory/devices", FindId(before, DeviceKey(Str(hostname))), forceUpdate);
      && (t.Err? ==> r == Err(t.error) && log == sent && files == filesBefore)
      && (t == Ok(None) ==> r == Ok(()) && log == sent && devices == before && files == filesBefore)
      && (t == Ok(Some("inventory/devices")) && |cacheName| > 0 ==> cacheName !in files)
      && (t.Ok? && t.value.Some? ==>
            var created := t.value.value == "inventory/devices";
            DeviceSent(hostname, args, t.value.value, !created, sent, before, keysBefore,
                       if created then WithoutCache(filesBefore, cacheName) else filesBefore, r))
    }

    /** The request of `ensure_host` to `path` and what followed it: the log
        grows by that request, and a dictionary reply replaces the local
        copies (dropping the old ones when `updated`), rewrites the cache
        file when it still exists and sets the agent key. */
    ghost predicate DeviceSent(hostname: string, args: Record, path: string, updated: bool, sent: seq<Request>,
                               before: seq<Record>, keysBefore: map<string, Value>,
                               filesBefore: map<string, Snapshot>, r: Result<()>)
      reads this
    {
      var request := PluginRequest(encode, apiToken, path, DeviceData(hostname, args), GET);
      var reply := PluginReply(server(sent, request));
      && log == sent + [request]
      && (reply.Err? ==> r == Err(reply.error) && files == filesBefore)
      && (reply.Ok? && !reply.value.Dict? ==> r == Err(Raised(AttributeError)) && files == filesBefore)
      && (reply.Ok? && reply.value.Dict? ==>
            && r == Ok(())
            && files == (if |cacheName| > 0 && cacheName in filesBefore then filesBefore[cacheName := Current()]
                         else filesBefore)
            && devices == (if updated then RemoveWhileIterating(before, Str(hostname), 0) else before) + [reply.value.fields]
            && agentKeys == (if hostname in inventoryHosts then keysBefore[hostname := Get(reply.value.fields, "agentKey")]
                             else keysBefore))
    }

    /** The request of `ensure_host` and what follows it. */
    method SendDevice(hostname: string, args: Record, path: string, updated: bool) returns (r: Result<()>)
      modifies this`devices, this`log, this`files, this`agentKeys
      ensures DeviceSent(hostname, args, path, updated, old(log), old(devices), old(agentKeys), old(files), r)
      ensures old(log) <= log && NoDeletes(log, |old(log)|)
      ensures path == "inventory/devices" ==> CreatesOnly(log, |old(log)|)
      ensures |cacheName| > 0 && cacheName !in old(files) ==> cacheName !in files
    {
      var reply := Request(path, DeviceData(hostname, args), GET);
      assert log[|old(log)|].verb == POST;
      if reply.Err? {
        return Err(reply.error);
      }
      if !reply.value.Dict? {
        return Err(Raised(AttributeError));
      }
      StoreDevice(hostname, updated, reply.value.fields);
      return Ok(());
    }

    /** The end of `ensure_host`: drop the old copies of an updated device,
        append the returned one, refresh an existing cache file and set the
        host's agent key. */
    method StoreDevice(hostname: string, updated: bool, device: Record)
      modifies this`devices, this`files, this`agentKeys
      ensures devices == (if updated then RemoveWhileIterating(old(devices), Str(hostname), 0) else old(devices)) + [device]
      ensures agentKeys == (if hostname in inventoryHosts then old(agentKeys)[hostname := Get(device, "agentKey")] else old(agentKeys))
      ensures files == (if |cacheName| > 0 && cacheName in old(files) then old(files)[cacheName := Current()]
                        else old(files))
    {
      if updated {
        RemoveOldDevices(Str(hostname));
      }
      devices := devices + [device];
      CacheUpdate(false);
      if hostname in inventoryHosts {
        agentKeys := agentKeys[hostname := Get(device, "agentKey")];
      }
    }

    /** `ensure_service`: create or (when forced) update the service; a
        created one is added to the local copies. */
    method EnsureService(name: Value, service: Record) returns (r: Result<()>)
      modifies this`services, this`log, this`files
      ensures old(log) <= log && NoDeletes(log, |old(log)|)
      ensures !Truthy(forceUpdate) ==> CreatesOnly(log, |old(log)|)
      ensures ServiceEnsured(name, service, old(log), old(services), old(files), r)
    {
      var id := GetServiceId(name);
      var path: string;
      if !Truthy(id) {
        path := "inventory/services";
        CacheReset();
      } else {
        if !Truthy(forceUpdate) {
          return Ok(());
        }
        if !id.Str? {
          return Err(Raised(TypeError));
        }
        path := "inventory/services/" + id.s;
        assert path == "inventory/services" + "/" + id.s;
      }
      var reply := Request(path, service, GET);
      if reply.Err? {
        return Err(reply.error);
      }
      if !Truthy(id) {
        if !reply.value.Dict? {
          return Err(Raised(AttributeError));
        }
        services := services + [reply.value.fields];
      }
      return Ok(());
    }

    /** What `ensure_service` did, given the log and the services before it. */
    ghost predicate ServiceEnsured(name: Value, service: Record, sent: seq<Request>, before: seq<Record>,
                                   filesBefore: map<string, Snapshot>, r: Result<()>)
      reads this
    {
      var t := Target("inventory/services", FindId(before, ServiceKey(name)), forceUpdate);
      && files == (if t == Ok(Some("inventory/services")) then WithoutCache(filesBefore, cacheName) else filesBefore)
      && (t.Err? ==> r == Err(t.error) && log == sent)
      && (t == Ok(None) ==> r == Ok(()) && log == sent && services == before)
      && (t == Ok(Some("inventory/services")) && |cacheName| > 0 ==> cacheName !in files)
      && (t.Ok? && t.value.Some? ==>
            var request := PluginRequest(encode, apiToken, t.value.value, service, GET);
            var reply := PluginReply(server(sent, request));
            && log == sent + [request]
            && (reply.Err? ==> r == Err(reply.error))
            && (reply.Ok? && t.value.value != "inventory/services" ==> r == Ok(()) && services == before)
            && (reply.Ok? && t.value.value == "inventory/services" ==>
                  if reply.value.Dict? then r == Ok(()) && services == before + [reply.value.fields]
                  else r == Err(Raised(AttributeError))))
    }

    /** `ensure_alert`: complete the config, match it against the unmarked
        alerts (marking the match), then create it or (when forced) update
        the match. */
    method EnsureAlert(alert: Value, aType: string, group: Value) returns (r: Result<()>)
      modifies this`alerts, this`log, this`files
      ensures old(log) <= log && NoDeletes(log, |old(log)|)
      ensures !Truthy(forceUpdate) ==> CreatesOnly(log, |old(log)|)
      ensures AlertEnsured(alert, aType, group, old(alerts), old(log), old(files), r)
    {
      ghost var c := AlertConfig(alert, aType, group, devices, services, users, notifications);
      var config := CompleteConfig(alert, aType, group);
      if config.Err? {
        return Err(config.error);
      }
      r := SendAlert(config.value);
      assert c == AlertConfig(alert, aType, group, devices, services, users, notifications);
    }

    /** What `ensure_alert` did, given the alerts, the log and the cache
        files before it: a malformed alert changes nothing, a completed
        config is sent as SentAlert says. */
    ghost predicate AlertEnsured(alert: Value, aType: string, group: Value, before: seq<Record>, sent: seq<Request>,
                                 filesBefore: map<string, Snapshot>, r: Result<()>)
      reads this
    {
      var c := AlertConfig(alert, aType, group, devices, services, users, notifications);
      && (c.Err? ==> r == Err(c.error) && log == sent && alerts == before && files == filesBefore)
      && (c.Ok? ==> SentAlert(c.value, before, sent, filesBefore, r))
    }

    /** What sending a completed alert config did: the match was marked,
        and nothing, the creation or the forced update was sent. */
    ghost predicate SentAlert(config: Record, before: seq<Record>, sent: seq<Request>,
                              filesBefore: map<string, Snapshot>, r: Result<()>)
      reads this
    {
      var m := AlertMatch(before, ConfigKey(config), Get(config, "comparison"), Get(config, "value"));
      alerts == m.alerts && Posted(config, m.id, sent, filesBefore, r)
    }

    /** What followed the match `id` of a completed config: nothing, or
        the cache reset and the creation, or the forced update. */
    ghost predicate Posted(config: Record, id: Value, sent: seq<Request>, filesBefore: map<string, Snapshot>, r: Result<()>)
      reads this
    {
      var t := AlertTarget(id, forceUpdate);
      && files == (if t == Ok(Some(AlertConfigs)) then WithoutCache(filesBefore, cacheName) else filesBefore)
      && (t.Err? ==> r == Err(t.error) && log == sent)
      && (t == Ok(None) ==> r == Ok(()) && log == sent)
      && (t == Ok(Some(AlertConfigs)) && |cacheName| > 0 ==> cacheName !in files)
      && (t.Ok? && t.value.Some? ==>
            var request := PluginRequest(encode, apiToken, t.value.value, WithId(config, id), GET);
            log == sent + [request] && r == Void(PluginReply(server(sent, request))))
    }

    /** The first half of `ensure_alert`: recipients, then the config
        completed with group, subject and recipients. */
    method CompleteConfig(alert: Value, aType: string, group: Value) returns (c: Result<Record>)
      ensures c == AlertConfig(alert, aType, group, devices, services, users, notifications)
    {
      if !alert.Dict? {
        return Err(Raised(AttributeError));
      }
      var recipients := Recipients(Get(alert.fields, "notify"));
      if recipients.Err? {
        return Err(recipients.error);
      }
      var config := Get(alert.fields, "config");
      if !config.Dict? {
        return Err(Raised(SetItemError(config)));
      }
      var subjectId: Value;
      if aType == "device" {
        subjectId := GetDeviceId(Get(alert.fields, "host"));
      } else if aType == "service" {
        subjectId := GetServiceId(Get(alert.fields, "service"));
      } else {
        subjectId := group;
      }
      return Ok(config.fields["group" := group]["subjectId" := subjectId]
                             ["subjectType" := Str(aType)]["recipients" := List(recipients.value)]);
    }

    /** The second half of `ensure_alert`. */
    method SendAlert(config: Record) returns (r: Result<()>)
      modifies this`alerts, this`log, this`files
      ensures old(log) <= log && NoDeletes(log, |old(log)|)
      ensures !Truthy(forceUpdate) ==> CreatesOnly(log, |old(log)|)
      ensures SentAlert(config, old(alerts), old(log), old(files), r)
    {
      var id := GetAlertId(Get(config, "subjectType"), Get(config, "subjectId"),
                           Get(config, "section"), Get(config, "field"),
                           Get(config, "comparison"), Get(config, "value"));
      r := SendMatched(config, id);
    }

    /** The end of `ensure_alert`: create when nothing matched, update
        the match when forced. */
    method SendMatched(config: Record, id: Value) returns (r: Result<()>)
      modifies this`log, this`files
      ensures old(log) <= log && NoDeletes(log, |old(log)|)
      ensures !Truthy(forceUpdate) ==> CreatesOnly(log, |old(log)|)
      ensures Posted(config, id, old(log), old(files), r)
    {
      ghost var t := AlertTarget(id, forceUpdate);
      var path: string;
      if !Truthy(id) {
        assert t == Ok(Some(AlertConfigs));
        path := AlertConfigs;
        CacheReset();
      } else {
        if IsNumber(id) {
          assert t == Err(Raised(TypeError));
          return Err(Raised(TypeError));
        }
        if !Truthy(forceUpdate) {
          assert t == Ok(None);
          return Ok(());
        }
        if !id.Str? {
          assert t == Err(Raised(TypeError));
          return Err(Raised(TypeError));
        }
        path := AlertConfigs + "/" + id.s;
        assert t == Ok(Some(path));
        assert path != AlertConfigs;
      }
      r := PostConfig(path, WithId(config, id));
    }

    /** The request that creates or updates an alert config. */
    method PostConfig(path: string, config: Record) returns (r: Result<()>)
      modifies this`log
      ensures var request := PluginRequest(encode, apiToken, path, config, GET);
              log == old(log) + [request] && r == Void(PluginReply(server(old(log), request)))
      ensures NoDeletes(log, |old(log)|)
      ensures path == AlertConfigs ==> CreatesOnly(log, |old(log)|)
    {
      var reply := Request(path, config, GET);
      return Void(reply);
    }

    /** `cleanup_alerts`: delete every alert no `ensure_alert` matched. */
    method CleanupAlerts() returns (r: Result<()>)
      modifies this`log, this`files
      ensures old(log) <= log && CreatesOnly(log, |old(log)|)
      ensures forall k :: |old(log)| <= k < |log| ==> log[k].verb == DELETE
      ensures r.Ok? ==> DeleteRequests(apiToken, alerts).Ok? && log == old(log) + DeleteRequests(apiToken, alerts).value
      ensures r.Ok? && |log| > |old(log)| && |cacheName| > 0 ==> cacheName !in files
      ensures |log| == |old(log)| ==> files == old(files)
      ensures files == old(files) || files == WithoutCache(old(files), cacheName)
      ensures r.Ok? ==> files == (if |log| > |old(log)| then WithoutCache(old(files), cacheName) else old(files))
    {
      var i := 0;
      ghost var deletes: seq<Request> := [];
      while i < |alerts|
        invariant 0 <= i <= |alerts|
        invariant DeleteRequests(apiToken, alerts[..i]) == Ok(deletes)
        invariant log == old(log) + deletes
        invariant forall k :: |old(log)| <= k < |log| ==> log[k].verb == DELETE
        invariant |deletes| > 0 && |cacheName| > 0 ==> cacheName !in files
        invariant files == (if |deletes| > 0 then WithoutCache(old(files), cacheName) else old(files))
      {
        DeleteRequestsStep(apiToken, alerts, i);
        var done := DeleteUnmarked(alerts[i]);
        if done.Err? {
          return done;
        }
        if !Marked(alerts[i]) {
          deletes := deletes + [DeleteOf(apiToken, Get(alerts[i], "_id").s)];
        }
        i := i + 1;
      }
      assert alerts[..i] == alerts;
      return Ok(());
    }

    /** One alert of the cleanup: a marked alert is kept; an unmarked one
        is deleted by its `_id`, then the cache file is removed. */
    method DeleteUnmarked(alert: Record) returns (r: Result<()>)
      modifies this`log, this`files
      ensures files.Keys <= old(files).Keys
      ensures files == (if !Marked(alert) && Get(alert, "_id").Str? && r.Ok? then WithoutCache(old(files), cacheName)
                        else old(files))
      ensures Marked(alert) ==> r == Ok(()) && log == old(log)
      ensures !Marked(alert) && !Get(alert, "_id").Str? ==> r == Err(Raised(TypeError)) && log == old(log)
      ensures !Marked(alert) && Get(alert, "_id").Str? ==>
                log == old(log) + [DeleteOf(apiToken, Get(alert, "_id").s)] &&
                (r.Ok? && |cacheName| > 0 ==> cacheName !in files)
    {
      if Marked(alert) {
        return Ok(());
      }
      var id := Get(alert, "_id");
      if !id.Str? {
        return Err(Raised(TypeError));
      }
      var reply := Request(AlertConfigs + "/" + id.s, map[], DELETE);
      assert PluginRequest(encode, apiToken, AlertConfigs + "/" + id.s, map[], DELETE) == DeleteOf(apiToken, id.s);
      if reply.Err? {
        return Err(reply.error);
      }
      CacheReset();
      return Ok(());
    }

    /** Since `start` was the log: no DELETE, and without `force` nothing
        but reads and creations. */
    ghost predicate Kept(start: seq<Request>)
      reads this
    {
      start <= log && NoDeletes(log, |start|) && (!Truthy(forceUpdate) ==> CreatesOnly(log, |start|))
    }

    /** The loop over one alert dict in `run`: every named alert through
        `ensure_alert`; with `service`, each alert first gets that service
        name under `service`. */
    method EnsureNamedAlerts(named: map<string, Value>, aType: string, group: Value, service: Option<Value>)
      returns (r: Result<()>)
      modifies this`alerts, this`log, this`files
      ensures Kept(old(log))
      ensures |named| == 0 ==> r == Ok(()) && log == old(log)
      ensures r.Ok? && service.Some? ==> forall name :: name in named ==> named[name].Dict?
    {
      ghost var start := log;
      var names := named.Keys;
      while names != {}
        invariant names <= named.Keys
        invariant Kept(start)
        invariant names == named.Keys ==> log == start
        invariant service.Some? ==> forall name :: name in named && name !in names ==> named[name].Dict?
        decreases names
      {
        var name :| name in names;
        ghost var before := log;
        var done := EnsureNamedAlert(named[name], aType, group, service);
        LogGrows(start, before, log);
        if done.Err? {
          return done;
        }
        names := names - {name};
      }
      return Ok(());
    }

    /** One pass of that loop: tag the alert with the service, then
        `ensure_alert`. */
    method EnsureNamedAlert(alert: Value, aType: string, group: Value, service: Option<Value>) returns (r: Result<()>)
      modifies this`alerts, this`log, this`files
      ensures Kept(old(log))
      ensures service.Some? && !alert.Dict? ==> r == Err(Raised(SetItemError(alert))) && log == old(log)
      ensures service.None? ==> AlertEnsured(alert, aType, group, old(alerts), old(log), old(files), r)
      ensures service.Some? && alert.Dict? ==>
                AlertEnsured(Dict(alert.fields["service" := service.value]), aType, group, old(alerts), old(log), old(files), r)
    {
      var tagged := alert;
      if service.Some? {
        if !alert.Dict? {
          return Err(Raised(SetItemError(alert)));
        }
        tagged := Dict(alert.fields["service" := service.value]);
      }
      r := EnsureAlert(tagged, aType, group);
    }

    /** `alerts = x.get(key)` followed by the loop over its names, when it
        is set. */
    method EnsureAlertsOf(v: Value, aType: string, group: Value, service: Option<Value>) returns (r: Result<()>)
      modifies this`alerts, this`log, this`files
      ensures Kept(old(log))
      ensures !Truthy(v) ==> r == Ok(()) && log == old(log)
      ensures Truthy(v) && !v.Dict? ==> r == Err(Raised(NamedNotADict(v))) && log == old(log)
    {
      if !Truthy(v) {
        return Ok(());
      }
      if !v.Dict? {
        return Err(Raised(NamedNotADict(v)));
      }
      r := EnsureNamedAlerts(v.fields, aType, group, service);
    }

    /** The host loop of `run`. */
    method EnsureHosts(hosts: seq<Host>) returns (r: Result<Decls>)
      modifies this`devices, this`alerts, this`log, this`files, this`agentKeys
      ensures Kept(old(log))
      ensures r.Ok? ==> r == Gather(VarsOf(hosts))
    {
      ghost var start := log;
      var d := NoDecls;
      var i := 0;
      while i < |hosts|
        invariant 0 <= i <= |hosts|
        invariant Kept(start)
        invariant Gather(VarsOf(hosts[..i])) == Ok(d)
      {
        GatherNext(hosts, i, d);
        ghost var before := log;
        var next := EnsureOneHost(d, hosts[i]);
        LogGrows(start, before, log);
        if next.Err? {
          return next;
        }
        d := next.value;
        i := i + 1;
      }
      assert hosts[..i] == hosts;
      return Ok(d);
    }

    /** One step of the host loop: gather the host's declarations, ensure
        the device, then its own alerts. */
    method EnsureOneHost(d: Decls, host: Host) returns (r: Result<Decls>)
      modifies this`devices, this`alerts, this`log, this`files, this`agentKeys
      ensures Kept(old(log))
      ensures r.Ok? ==> r == AddHost(d, host.vars)
    {
      var vars := host.vars;
      var next := GatherHost(d, vars);
      if next.Err? {
        return Err(next.error);
      }
      var args := HostArgs(host.name, vars, HostGroup(vars));
      if args.Err? {
        return Err(args.error);
      }
      ghost var start := log;
      var ensured := EnsureHost(host.name, args.value);
      if ensured.Err? {
        return Err(ensured.error);
      }
      ghost var l1 := log;
      var own := EnsureAlertsOf(Get(vars, "sd_alerts"), "device", Null, None);
      LogGrows(start, l1, log);
      if own.Err? {
        return Err(own.error);
      }
      return next;
    }

    /** The device group loop of `run`; a group name that is not a string
        fails the progress message's concatenation. */
    method EnsureDevicegroupAlerts(groups: map<Value, map<string, Value>>) returns (r: Result<()>)
      modifies this`alerts, this`log, this`files
      ensures Kept(old(log))
      ensures |groups| == 0 ==> r == Ok(()) && log == old(log)
      ensures r.Ok? ==> forall g :: g in groups ==> g.Str?
    {
      ghost var start := log;
      var names := groups.Keys;
      while names != {}
        invariant names <= groups.Keys
        invariant Kept(start)
        invariant names == groups.Keys ==> log == start
        invariant forall g :: g in groups && g !in names ==> g.Str?
        decreases names
      {
        var group :| group in names;
        if !group.Str? {
          return Err(Raised(TypeError));
        }
        ghost var before := log;
        var done := EnsureNamedAlerts(groups[group], "deviceGroup", group, None);
        LogGrows(start, before, log);
        if done.Err? {
          return done;
        }
        names := names - {group};
      }
      return Ok(());
    }

    /** The service loop of `run`: ensure each declared service, then its
        alerts, each tagged with the service's name. */
    method EnsureServices(declared: map<Value, Record>) returns (r: Result<()>)
      modifies this`services, this`alerts, this`log, this`files
      ensures Kept(old(log))
      ensures |declared| == 0 ==> r == Ok(()) && log == old(log)
      ensures r.Ok? ==> forall name :: name in declared ==> name.Str?
    {
      ghost var start := log;
      var names := declared.Keys;
      while names != {}
        invariant names <= declared.Keys
        invariant Kept(start)
        invariant names == declared.Keys ==> log == start
        invariant forall name :: name in declared && name !in names ==> name.Str?
        decreases names
      {
        var name :| name in names;
        if !name.Str? {
          return Err(Raised(TypeError));
        }
        var service := declared[name];
        ghost var l1 := log;
        var ensured := EnsureService(name, service);
        LogGrows(start, l1, log);
        if ensured.Err? {
          return ensured;
        }
        ghost var l2 := log;
        var done := EnsureAlertsOf(Get(service, "alerts"), "service", Null, Some(Get(service, "name")));
        LogGrows(start, l2, log);
        if done.Err? {
          return done;
        }
        names := names - {name};
      }
      return Ok(());
    }

    /** The service group loop of `run`: each alert names its own group. */
    method EnsureServicegroupAlerts(named: map<string, Value>) returns (r: Result<()>)
      modifies this`alerts, this`log, this`files
      ensures Kept(old(log))
      ensures |named| == 0 ==> r == Ok(()) && log == old(log)
      ensures r.Ok? ==> forall name :: name in named ==> named[name].Dict?
    {
      ghost var start := log;
      var names := named.Keys;
      while names != {}
        invariant names <= named.Keys
        invariant Kept(start)
        invariant names == named.Keys ==> log == start
        invariant forall name :: name in named && name !in names ==> named[name].Dict?
        decreases names
      {
        var name :| name in names;
        var alert := named[name];
        if !alert.Dict? {
          return Err(Raised(AttributeError));
        }
        ghost var before := log;
        var done := EnsureNamedAlert(alert, "serviceGroup", Get(alert.fields, "group"), None);
        LogGrows(start, before, log);
        if done.Err? {
          return done;
        }
        names := names - {name};
      }
      return Ok(());
    }

    /** The part of `run` after the download: the four loops, then the
        cleanup when asked. */
    method Sync(hosts: seq<Host>, cleanup: bool) returns (r: Result<()>)
      modifies this`devices, this`services, this`alerts, this`log, this`files, this`agentKeys
      ensures old(log) <= log
      ensures !Truthy(forceUpdate) ==> CreatesOnly(log, |old(log)|)
      ensures !cleanup ==> NoDeletes(log, |old(log)|)
      ensures r.Ok? && cleanup ==>
                var d := DeleteRequests(apiToken, alerts);
                d.Ok? && |d.value| <= |log| && log[|log| - |d.value|..] == d.value
    {
      ghost var start := log;
      var decls := EnsureHosts(hosts);
      if decls.Err? {
        return Err(decls.error);
      }
      ghost var l2 := log;
      r := EnsureDevicegroupAlerts(decls.value.devicegroupAlerts);
      LogGrows(start, l2, log);
      if r.Err? {
        return;
      }
      ghost var l3 := log;
      r := EnsureServices(decls.value.services);
      LogGrows(start, l3, log);
      if r.Err? {
        return;
      }
      ghost var l4 := log;
      r := EnsureServicegroupAlerts(decls.value.servicegroupAlerts);
      LogGrows(start, l4, log);
      if r.Err? || !cleanup {
        return;
      }
      ghost var l5 := log;
      r := CleanupAlerts();
      LogGrows(start, l5, log);
    }

    /** `run`: skip in check mode, otherwise read the arguments and go on
        as Start. `tempName` is the fresh name `tempfile.mktemp` returns. */
    method Run(checkMode: bool, complexArgs: Record, kvArgs: map<string, string>, hosts: seq<Host>, tempName: string)
      returns (r: Result<Outcome>)
      requires |tempName| > 0 && tempName !in files
      modifies this
      ensures old(log) <= log
      ensures checkMode ==> r == Ok(Skipped) && log == old(log) && files == old(files)
      ensures !checkMode ==> StartDid(Arguments(complexArgs, kvArgs), tempName, old(log), r)
    {
      if checkMode {
        return Ok(Skipped);
      }
      var args := Arguments(complexArgs, kvArgs);
      r := Start(args, hosts, tempName);
    }

    /** What `run` promises once past check mode, given its arguments. */
    ghost predicate StartDid(args: Record, tempName: string, before: seq<Request>, r: Result<Outcome>)
      reads this
    {
      var readonly := Truthy(GetOr(args, "readonly", Bool(false)));
      var cleanup := Truthy(GetOr(args, "cleanup", Bool(false)));
      && r != Ok(Skipped)
      && ("api_token" !in args ==> r == Err(AnsibleError(Str(ApiTokenRequired))) && log == before)
      && ("api_token" in args ==> apiToken == args["api_token"])
      && (readonly ==> ReadsOnly(log, |before|)
                       && (r.Ok? ==> cacheName == tempName && tempName in files && files[tempName] == Current()))
      && (!Truthy(GetOr(args, "force", Bool(false))) ==> CreatesOnly(log, |before|))
      && (!cleanup ==> NoDeletes(log, |before|))
      && (r.Ok? && !readonly && cleanup ==>
            var d := DeleteRequests(apiToken, alerts);
            d.Ok? && |d.value| <= |log| && log[|log| - |d.value|..] == d.value)
    }

    /** `run` past check mode: store the arguments (`readonly` turns off
        `force` and `cleanup` and caches to `tempName`), download
        everything, stop there when `readonly`, otherwise Sync. */
    method Start(args: Record, hosts: seq<Host>, tempName: string) returns (r: Result<Outcome>)
      requires |tempName| > 0 && tempName !in files
      modifies this
      ensures old(log) <= log
      ensures StartDid(args, tempName, old(log), r)
    {
      if "api_token" !in args {
        return Err(AnsibleError(Str(ApiTokenRequired)));
      }
      apiToken := args["api_token"];
      forceUpdate := GetOr(args, "force", Bool(false));
      cacheName := CacheArg(GetOr(args, "cache", Null));
      var cleanup := GetOr(args, "cleanup", Bool(false));
      var readonly := GetOr(args, "readonly", Bool(false));
      if Truthy(readonly) {
        forceUpdate := Bool(false);
        cacheName := tempName;
        cleanup := Bool(false);
      }
      ghost var start := log;
      var done := ListAll();
      if done.Err? {
        return Err(done.error);
      }
      ReadsAreQuiet(log, |start|);
      if Truthy(readonly) {
        return Ok(Completed);
      }
      ghost var l1 := log;
      done := Sync(hosts, Truthy(cleanup));
      LogGrows(start, l1, log);
      if done.Err? {
        return Err(done.error);
      }
      return Ok(Completed);
    }
  }
}
