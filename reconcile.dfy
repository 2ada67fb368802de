/** The rules the plugin's `ensure_*` operations follow, as functions of
    their inputs: where a POST goes, what a device record is built from, how
    an alert config is completed and matched, which inventory hosts get an
    agent key. The class in module Plugin is proved against these. */
module Reconcile {
  import opened PyValues
  import opened Api
  import opened Matching

  // ---------------------------------------------------------------------
  // Where a POST goes

  /** `ensure_host` / `ensure_service`: the collection when no id was found,
      the object's own path when one was and updates are forced, nothing
      when one was found and updates are off. The path concatenates the id,
      so a found id that is not a string raises. */
  function Target(collection: string, id: Value, force: Value): (t: Result<Option<string>>)
    ensures !Truthy(id) <==> t == Ok(Some(collection))
    ensures Truthy(id) && !Truthy(force) <==> t == Ok(None)
    ensures t.Ok? && t.value.Some? && t.value.value != collection ==>
              Truthy(force) && id.Str? && t.value.value == collection + "/" + id.s
    ensures t.Err? <==> Truthy(id) && Truthy(force) && !id.Str?
  {
    if !Truthy(id) then Ok(Some(collection))
    else if !Truthy(force) then Ok(None)
    else if !id.Str? then Err(Raised(TypeError))
    else Ok(Some(collection + "/" + id.s))
  }

  const AlertConfigs: string := "alerts/configs"

  /** `ensure_alert` tests `not alertId or len(alertId) == 0`: `len` of a
      truthy number raises even when updates are off. */
  function AlertTarget(id: Value, force: Value): (t: Result<Option<string>>)
    ensures !Truthy(id) <==> t == Ok(Some(AlertConfigs))
    ensures t.Ok? && t.value.Some? && t.value.value != AlertConfigs ==>
              Truthy(force) && id.Str? && t.value.value == AlertConfigs + "/" + id.s
    ensures Truthy(id) && IsNumber(id) ==> t == Err(Raised(TypeError))
    ensures !IsNumber(id) ==> t == Target(AlertConfigs, id, force)
  {
    if !Truthy(id) then Ok(Some(AlertConfigs))
    else if IsNumber(id) then Err(Raised(TypeError))
    else Target(AlertConfigs, id, force)
  }

  /** The requests an `ensure_*` operation may send without `force`: reads,
      and POSTs that create. */
  const CreateUrls: set<string> :=
    {BaseUrl + "inventory/devices", BaseUrl + "inventory/services", BaseUrl + AlertConfigs}

  predicate CreatesOnly(log: seq<Request>, start: nat)
  {
    forall k :: start <= k < |log| ==> log[k].verb != POST || log[k].url in CreateUrls
  }

  predicate ReadsOnly(log: seq<Request>, start: nat)
  {
    forall k :: start <= k < |log| ==> log[k].verb == GET
  }

  predicate NoDeletes(log: seq<Request>, start: nat)
  {
    forall k :: start <= k < |log| ==> log[k].verb != DELETE
  }

  /** Reading is neither updating nor deleting. */
  lemma ReadsAreQuiet(log: seq<Request>, start: nat)
    requires ReadsOnly(log, start)
    ensures CreatesOnly(log, start) && NoDeletes(log, start)
  {
  }

  /** The log properties of two stretches of requests hold of the two
      together. */
  lemma LogGrows(l0: seq<Request>, l1: seq<Request>, l2: seq<Request>)
    requires l0 <= l1 <= l2
    ensures l0 <= l2
    ensures ReadsOnly(l1, |l0|) && ReadsOnly(l2, |l1|) ==> ReadsOnly(l2, |l0|)
    ensures CreatesOnly(l1, |l0|) && CreatesOnly(l2, |l1|) ==> CreatesOnly(l2, |l0|)
    ensures NoDeletes(l1, |l0|) && NoDeletes(l2, |l1|) ==> NoDeletes(l2, |l0|)
  {
    assert forall k :: 0 <= k < |l1| ==> l2[k] == l1[k];
  }

  /** A POST through `_request` to a target that `force` did not unlock
      creates. */
  lemma QuietPost(encode: Value -> Json, token: Value, collection: string, id: Value, force: Value, data: Record)
    requires BaseUrl + collection in CreateUrls
    requires Target(collection, id, force).Ok? && Target(collection, id, force).value.Some?
    requires !Truthy(force)
    ensures PluginRequest(encode, token, Target(collection, id, force).value.value, data, GET).url in CreateUrls
  {
  }

  // ---------------------------------------------------------------------
  // Device records

  /** `a + b` on the values facts hold: strings and lists concatenate,
      numbers add; anything else raises. */
  function Add(a: Value, b: Value): (r: Result<Value>)
    ensures a.Str? && b.Str? ==> r == Ok(Str(a.s + b.s))
    ensures a.List? && b.List? ==> r == Ok(List(a.items + b.items))
    ensures (a.Str? && !b.Str?) || (a.List? && !b.List?) || a.Null? || a.Dict? ==> r.Err?
  {
    if a.Str? && b.Str? then Ok(Str(a.s + b.s))
    else if a.List? && b.List? then Ok(List(a.items + b.items))
    else if !IsNumber(a) || !IsNumber(b) then Err(Raised(TypeError))
    else if a.Float? || b.Float? then Ok(Float(NumberOf(a) + NumberOf(b)))
    else Ok(Int(IntOf(a) + IntOf(b)))
  }

  /** The int a bool or int stands for. */
  function IntOf(v: Value): int
  {
    match v
    case Bool(b) => if b then 1 else 0
    case Int(i) => i
    case _ => 0
  }

  function AddAll(parts: seq<Value>): Result<Value>
    requires |parts| > 0
  {
    if |parts| == 1 then Ok(parts[0])
    else
      var before := AddAll(parts[..|parts| - 1]);
      if before.Err? then before else Add(before.value, parts[|parts| - 1])
  }

  /** `d.get(key, default)`. */
  function GetOr(r: Record, key: string, default: Value): Value
  {
    if key in r then r[key] else default
  }

  /** `os.code`: system, distribution, release and version, space-separated. */
  function OsCode(f: Record): Result<Value>
  {
    AddAll([GetOr(f, "ansible_system", Str("")), Str(" "), GetOr(f, "ansible_distribution", Str("")), Str(" "),
            GetOr(f, "ansible_distribution_release", Str("")), Str(" "),
            GetOr(f, "ansible_distribution_version", Str(""))])
  }

  /** `publicIPs`: the IPv4 addresses, then the IPv6 ones. */
  function PublicIPs(f: Record): Result<Value>
  {
    Add(GetOr(f, "ansible_all_ipv4_addresses", Str("")), GetOr(f, "ansible_all_ipv6_addresses", Str("")))
  }

  /** The keyword arguments `run` passes to `ensure_host` for one host,
      read from its facts and its `location` and `provider` variables. */
  function HostArgs(hostname: string, vars: Record, group: Value): Result<Record>
  {
    var facts := GetOr(vars, "ansible_facts", Dict(map[]));
    var location := if Truthy(Get(vars, "location")) then Get(vars, "location") else Dict(map[]);
    if !facts.Dict? then Err(Raised(AttributeError))
    else
      var f := facts.fields;
      var system := GetOr(f, "ansible_system", Str(""));
      var code := OsCode(f);
      if code.Err? then Err(code.error)
      else
        var ips := PublicIPs(f);
        if ips.Err? then Err(ips.error)
        else if !location.Dict? then Err(Raised(AttributeError))
        else
          var l := location.fields;
          Ok(map[
            "cpuCores" := Get(f, "ansible_processor_count"),
            "group" := group,
            "installedRAM" := Get(f, "ansible_memtotal_mb"),
            "name" := Str(hostname),
            "os" := Dict(map["code" := code.value, "name" := system]),
            "publicIPs" := ips.value,
            "swapSpace" := Get(f, "ansible_swaptotal_mb"),
            "location" := Dict(map["countryCode" := Get(l, "countryCode"), "countryName" := Get(l, "countryName"),
                                   "text" := Get(l, "text")]),
            "provider" := Get(vars, "provider")])
  }

  /** Facts that are strings give an `os.code` of the four parts joined by
      single spaces. */
  lemma OsCodeOfStrings(f: Record, system: string, dist: string, release: string, version: string)
    requires GetOr(f, "ansible_system", Str("")) == Str(system)
    requires GetOr(f, "ansible_distribution", Str("")) == Str(dist)
    requires GetOr(f, "ansible_distribution_release", Str("")) == Str(release)
    requires GetOr(f, "ansible_distribution_version", Str("")) == Str(version)
    ensures OsCode(f) == Ok(Str(system + " " + dist + " " + release + " " + version))
  {
    var parts := [Str(system), Str(" "), Str(dist), Str(" "), Str(release), Str(" "), Str(version)];
    AddAllStrings(parts);
    assert Joined(parts[..1]) == system by { assert parts[..1][..0] == []; }
    assert Joined(parts[..2]) == system + " " by { assert parts[..2][..1] == parts[..1]; }
    assert Joined(parts[..3]) == system + " " + dist by { assert parts[..3][..2] == parts[..2]; }
    assert Joined(parts[..4]) == system + " " + dist + " " by { assert parts[..4][..3] == parts[..3]; }
    assert Joined(parts[..5]) == system + " " + dist + " " + release by { assert parts[..5][..4] == parts[..4]; }
    assert Joined(parts[..6]) == system + " " + dist + " " + release + " " by { assert parts[..6][..5] == parts[..5]; }
    assert Joined(parts) == system + " " + dist + " " + release + " " + version by { assert parts[..6] == parts[..|parts| - 1]; }
  }

  /** A host with a facts dict and a dict (or no) location gets its device
      arguments, whose `os.code` and `publicIPs` come from the facts as
      above; only facts of the wrong type make `run` raise here. */
  lemma HostArgsWellFormed(hostname: string, vars: Record, group: Value,
                           system: string, dist: string, release: string, version: string,
                           v4: seq<Value>, v6: seq<Value>)
    requires "ansible_facts" in vars && vars["ansible_facts"].Dict?
    requires var f := vars["ansible_facts"].fields;
             GetOr(f, "ansible_system", Str("")) == Str(system) &&
             GetOr(f, "ansible_distribution", Str("")) == Str(dist) &&
             GetOr(f, "ansible_distribution_release", Str("")) == Str(release) &&
             GetOr(f, "ansible_distribution_version", Str("")) == Str(version) &&
             GetOr(f, "ansible_all_ipv4_addresses", Str("")) == List(v4) &&
             GetOr(f, "ansible_all_ipv6_addresses", Str("")) == List(v6)
    requires !Truthy(Get(vars, "location")) || Get(vars, "location").Dict?
    ensures HostArgs(hostname, vars, group).Ok?
    ensures var a := HostArgs(hostname, vars, group).value;
            a["os"] == Dict(map["code" := Str(system + " " + dist + " " + release + " " + version), "name" := Str(system)]) &&
            a["publicIPs"] == List(v4 + v6) && a["name"] == Str(hostname) && a["group"] == group
  {
    OsCodeOfStrings(vars["ansible_facts"].fields, system, dist, release, version);
  }

  /** Adding up strings concatenates them. */
  lemma {:induction false} AddAllStrings(parts: seq<Value>)
    requires |parts| > 0 && forall k :: 0 <= k < |parts| ==> parts[k].Str?
    ensures AddAll(parts) == Ok(Str(Joined(parts)))
  {
    var init := parts[..|parts| - 1];
    assert forall k :: 0 <= k < |init| ==> init[k] == parts[k];
    if |parts| == 1 {
      assert init == [];
      assert Joined(init) == "";
      assert Joined(parts) == parts[0].s;
      assert parts[0] == Str(parts[0].s);
    } else {
      AddAllStrings(init);
      assert Joined(parts) == Joined(init) + parts[|parts| - 1].s;
    }
  }

  /** The text of string parts, concatenated. */
  function Joined(parts: seq<Value>): string
    requires forall k :: 0 <= k < |parts| ==> parts[k].Str?
  {
    if parts == [] then "" else Joined(parts[..|parts| - 1]) + parts[|parts| - 1].s
  }

  /** The parameters of `ensure_host`; all but `hostname` default to None. */
  const DeviceFields: set<string> :=
    {"hostname", "cpuCores", "group", "installedRAM", "name", "os", "privateIPs", "privateDNS",
     "publicIPs", "publicDNS", "swapSpace", "location", "provider"}

  /** The `data` dict of `ensure_host`: every parameter, with `name`
      falling back to the host name. */
  function DeviceData(hostname: string, args: Record): (d: Record)
    ensures d.Keys == DeviceFields
    ensures d["hostname"] == Str(hostname)
    ensures d["name"] == (if Truthy(Get(args, "name")) then Get(args, "name") else Str(hostname))
    ensures forall k :: k in DeviceFields && k != "hostname" && k != "name" ==> d[k] == Get(args, k)
  {
    map k | k in DeviceFields ::
      if k == "hostname" then Str(hostname)
      else if k == "name" then (if Truthy(Get(args, "name")) then Get(args, "name") else Str(hostname))
      else Get(args, k)
  }

  // ---------------------------------------------------------------------
  // Agent keys on inventory hosts

  /** `_list_devices_agent_key` over `devices`: each device whose name is an
      inventory host sets that host's `sd_agent_key`. */
  function AgentKeys(keys: map<string, Value>, devices: seq<Record>, hosts: set<string>): Result<map<string, Value>>
  {
    if devices == [] then Ok(keys)
    else
      var before := AgentKeys(keys, devices[..|devices| - 1], hosts);
      var d := devices[|devices| - 1];
      var name := Get(d, "name");
      if before.Err? then before
      else if Unhashable(name) then Err(Raised(TypeError))
      else if name.Str? && name.s in hosts then Ok(before.value[name.s := Get(d, "agentKey")])
      else before
  }

  lemma {:induction false} AgentKeysErrorPersists(keys: map<string, Value>, devices: seq<Record>, hosts: set<string>, n: nat)
    requires n <= |devices| && AgentKeys(keys, devices[..n], hosts).Err?
    ensures AgentKeys(keys, devices, hosts) == AgentKeys(keys, devices[..n], hosts)
    decreases |devices| - n
  {
    if n < |devices| {
      assert devices[..n + 1][..n] == devices[..n];
      AgentKeysErrorPersists(keys, devices, hosts, n + 1);
    } else {
      assert devices[..n] == devices;
    }
  }

  /** A device named after an inventory host. */
  predicate NamesHost(d: Record, host: string)
  {
    Get(d, "name") == Str(host)
  }

  /** The last device named after a host decides its agent key. */
  lemma {:induction false} AgentKeyOfLast(keys: map<string, Value>, devices: seq<Record>, hosts: set<string>, host: string, j: nat)
    requires AgentKeys(keys, devices, hosts).Ok? && host in hosts
    requires j < |devices| && NamesHost(devices[j], host)
    requires forall i :: j < i < |devices| ==> !NamesHost(devices[i], host)
    ensures host in AgentKeys(keys, devices, hosts).value
    ensures AgentKeys(keys, devices, hosts).value[host] == Get(devices[j], "agentKey")
  {
    var init := devices[..|devices| - 1];
    if j < |devices| - 1 {
      assert forall i :: j < i < |init| ==> init[i] == devices[i];
      AgentKeyOfLast(keys, init, hosts, host, j);
    }
  }

  /** Hosts no device is named after keep their key, and only inventory
      hosts get one. */
  lemma {:induction false} AgentKeysUntouched(keys: map<string, Value>, devices: seq<Record>, hosts: set<string>, host: string)
    requires AgentKeys(keys, devices, hosts).Ok?
    requires host !in hosts || forall i :: 0 <= i < |devices| ==> !NamesHost(devices[i], host)
    ensures host in AgentKeys(keys, devices, hosts).value <==> host in keys
    ensures host in keys ==> AgentKeys(keys, devices, hosts).value[host] == keys[host]
  {
    if devices != [] {
      var init := devices[..|devices| - 1];
      assert forall i :: 0 <= i < |init| ==> init[i] == devices[i];
      AgentKeysUntouched(keys, init, hosts, host);
    }
  }

  // ---------------------------------------------------------------------
  // Alert configs

  /** `alert.get('config').__setitem__(...)` on a value that is not a dict. */
  function SetItemError(v: Value): PyException
  {
    if v.List? then TypeError else AttributeError
  }

  /** The subject an alert of type `aType` is attached to: the device found
      by the alert's `host`, the service found by its `service`, or the
      group. */
  function SubjectId(aType: string, alert: Record, group: Value, devices: seq<Record>, services: seq<Record>): Value
  {
    if aType == "device" then FindId(devices, DeviceKey(Get(alert, "host")))
    else if aType == "service" then FindId(services, ServiceKey(Get(alert, "service")))
    else group
  }

  /** The config `ensure_alert` sends, before any `_id`: the alert's own
      config completed with group, subject and recipients. */
  function AlertConfig(alert: Value, aType: string, group: Value, devices: seq<Record>, services: seq<Record>,
                       users: seq<Record>, notifications: seq<Record>): (r: Result<Record>)
    ensures r.Ok? ==> alert.Dict? && Get(alert.fields, "config").Dict?
    ensures r.Ok? ==> r.value.Keys == Get(alert.fields, "config").fields.Keys + {"group", "subjectId", "subjectType", "recipients"}
    ensures r.Ok? ==> r.value["subjectType"] == Str(aType) && r.value["group"] == group &&
                      r.value["subjectId"] == SubjectId(aType, alert.fields, group, devices, services)
    ensures r.Ok? ==> r.value["recipients"].List? &&
                      forall k :: 0 <= k < |r.value["recipients"].items| ==> RecipientShape(r.value["recipients"].items[k])
    ensures r.Ok? ==> forall k :: k in r.value && k !in {"group", "subjectId", "subjectType", "recipients"} ==>
                        r.value[k] == Get(alert.fields, "config").fields[k]
    ensures !alert.Dict? ==> r == Err(Raised(AttributeError))
  {
    if !alert.Dict? then Err(Raised(AttributeError))
    else
      var recipients := RecipientList(Get(alert.fields, "notify"), users, notifications);
      if recipients.Err? then Err(recipients.error)
      else
        var config := Get(alert.fields, "config");
        if !config.Dict? then Err(Raised(SetItemError(config)))
        else
          Ok(config.fields["group" := group]
                          ["subjectId" := SubjectId(aType, alert.fields, group, devices, services)]
                          ["subjectType" := Str(aType)]
                          ["recipients" := List(recipients.value)])
  }

  /** The natural key an alert config is matched on. */
  function ConfigKey(config: Record): Record
  {
    AlertKey(Get(config, "subjectType"), Get(config, "subjectId"), Get(config, "section"), Get(config, "field"))
  }

  /** The config sent: with the matched alert's id when there is one. */
  function WithId(config: Record, id: Value): Record
  {
    if Truthy(id) then config["_id" := id] else config
  }

  // ---------------------------------------------------------------------
  // Alert matching

  datatype Match = Match(id: Value, alerts: seq<Record>)

  /** A position of `alerts` the match changed. */
  predicate Changed(before: seq<Record>, after: seq<Record>, i: int)
    requires |before| == |after|
  {
    0 <= i < |before| && after[i] != before[i]
  }

  /** What `_get_alert_id` returns and leaves in `self.alerts`: among the
      unmarked alerts matching the key, the one the scoring loop keeps is
      marked `ansible_updated` and its `_id` returned; `False` and nothing
      changed when there is no candidate. */
  function AlertMatch(alerts: seq<Record>, crit: Record, comparison: Value, value: Value): (m: Match)
    ensures |m.alerts| == |alerts|
  {
    var cands := Candidates(alerts, crit);
    if |cands| == 0 then
      Match(Bool(false), alerts)
    else
      var pos := cands[AsWrittenChoice(alerts, cands, comparison, value, |cands|)];
      var a := alerts[pos];
      if |a| > 0 then Match(Get(a, "_id"), alerts[pos := Mark(a)]) else Match(Bool(false), alerts)
  }

  /** A match changes at most one alert, an unmarked candidate, by marking
      it; marked alerts are never touched; a truthy id comes from the
      alert marked; a candidate, none of them empty, always gets marked;
      with no candidate nothing changes and the id is `False`. */
  lemma AlertMatchMarksOne(alerts: seq<Record>, crit: Record, comparison: Value, value: Value)
    ensures var m := AlertMatch(alerts, crit, comparison, value);
      && (forall i :: Changed(alerts, m.alerts, i) ==> IsCandidate(alerts[i], crit) && m.alerts[i] == Mark(alerts[i]))
      && (forall i, j :: Changed(alerts, m.alerts, i) && Changed(alerts, m.alerts, j) ==> i == j)
      && (forall i :: 0 <= i < |alerts| && Marked(alerts[i]) ==> m.alerts[i] == alerts[i])
      && (Truthy(m.id) ==> exists p :: Changed(alerts, m.alerts, p) && m.id == Get(alerts[p], "_id"))
      && ((exists i :: 0 <= i < |alerts| && IsCandidate(alerts[i], crit)) &&
          (forall i :: 0 <= i < |alerts| && IsCandidate(alerts[i], crit) ==> |alerts[i]| > 0) ==>
            exists p :: Changed(alerts, m.alerts, p))
      && ((forall i :: 0 <= i < |alerts| ==> !IsCandidate(alerts[i], crit)) ==> m == Match(Bool(false), alerts))
  {
    var cands := Candidates(alerts, crit);
    if |cands| > 0 {
      var pos := cands[AsWrittenChoice(alerts, cands, comparison, value, |cands|)];
      var a := alerts[pos];
      assert IsCandidate(a, crit);
      MarkChangesAlert(a);
      if |a| > 0 {
        assert Changed(alerts, alerts[pos := Mark(a)], pos);
      }
    }
  }

  /** An alert one match marked is left alone by every later match, so a
      fetched alert is matched at most once per run and stays out of the
      cleanup. */
  lemma MatchedAtMostOnce(alerts: seq<Record>, crit1: Record, comparison1: Value, value1: Value,
                          crit2: Record, comparison2: Value, value2: Value, i: int)
    requires Changed(alerts, AlertMatch(alerts, crit1, comparison1, value1).alerts, i)
    ensures var after := AlertMatch(alerts, crit1, comparison1, value1).alerts;
            Marked(after[i]) && AlertMatch(after, crit2, comparison2, value2).alerts[i] == after[i]
  {
    AlertMatchMarksOne(alerts, crit1, comparison1, value1);
    var after := AlertMatch(alerts, crit1, comparison1, value1).alerts;
    assert after[i] == Mark(alerts[i]);
    AlertMatchMarksOne(after, crit2, comparison2, value2);
  }

  lemma MarkChangesAlert(a: Record)
    requires !Marked(a)
    ensures Mark(a) != a
  {
    assert Marked(Mark(a));
  }

  /** Every alert `ensure_alert` looks for has a string subject type, so a
      candidate is never the empty dict and some candidate is always
      marked when one exists. */
  lemma CandidateNotEmpty(a: Record, subjectType: string, subjectId: Value, section: Value, field: Value)
    requires IsCandidate(a, AlertKey(Str(subjectType), subjectId, section, field))
    ensures |a| > 0
  {
    assert PyEq(Get(a, "subjectType"), Str(subjectType));
  }
}
