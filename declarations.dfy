/** What `run` gathers from the hosts' inventory variables before it
    reconciles services and group alerts: services keyed by name, device
    group alerts keyed by group and alert name, service group alerts keyed
    by name; the first host (in host order) to declare a key wins. */
module Declarations {
  import opened PyValues

  datatype Decls = Decls(
    services: map<Value, Record>,
    devicegroupAlerts: map<Value, map<string, Value>>,
    servicegroupAlerts: map<string, Value>)

  const NoDecls := Decls(map[], map[], map[])

  /** The group a host's device group alerts go to. */
  function HostGroup(vars: Record): (g: Value)
    ensures Truthy(g)
    ensures Truthy(Get(vars, "sd_group")) ==> g == Get(vars, "sd_group")
  {
    var g := Get(vars, "sd_group");
    if Truthy(g) then g else Str("All others")
  }

  /** What `for x in v: x.get(...)` raises when `v` is truthy but not a list. */
  function NotAList(v: Value): PyException
  {
    if v.Dict? || v.Str? then AttributeError else TypeError
  }

  /** What `for k in v: v.get(k)` raises when `v` is truthy but not a dict. */
  function NotADict(v: Value): PyException
  {
    if v.List? || v.Str? then AttributeError else TypeError
  }

  // ---------------------------------------------------------------------
  // Services

  /** The services loop over one host's `sd_services`: add each service
      under its name unless the name is already taken. */
  function AddServices(acc: map<Value, Record>, items: seq<Value>): Result<map<Value, Record>>
  {
    if items == [] then Ok(acc)
    else
      var before := AddServices(acc, items[..|items| - 1]);
      var item := items[|items| - 1];
      if before.Err? then before
      else if !item.Dict? then Err(Raised(AttributeError))
      else
        var name := Get(item.fields, "name");
        if Unhashable(name) then Err(Raised(TypeError))
        else if name in before.value then before
        else Ok(before.value[name := item.fields])
  }

  /** A service item declaring `name`. */
  predicate Declares(item: Value, name: Value)
  {
    item.Dict? && Get(item.fields, "name") == name
  }

  /** Every name gathered from `items` keeps an earlier entry or comes from
      some item. */
  lemma {:induction false} ServicesFromItems(acc: map<Value, Record>, items: seq<Value>)
    requires AddServices(acc, items).Ok?
    ensures var m := AddServices(acc, items).value;
            acc.Keys <= m.Keys &&
            (forall name :: name in acc ==> m[name] == acc[name]) &&
            (forall name :: name in m && name !in acc ==>
               exists j :: 0 <= j < |items| && Declares(items[j], name) && items[j] == Dict(m[name]))
  {
    if items != [] {
      var init := items[..|items| - 1];
      ServicesFromItems(acc, init);
      var before := AddServices(acc, init).value;
      var m := AddServices(acc, items).value;
      forall name | name in m && name !in acc
        ensures exists j :: 0 <= j < |items| && Declares(items[j], name) && items[j] == Dict(m[name])
      {
        if name in before {
          var j :| 0 <= j < |init| && Declares(init[j], name) && init[j] == Dict(before[name]);
          assert items[j] == init[j];
        } else {
          assert items[|items| - 1] == Dict(m[name]);
        }
      }
    }
  }

  /** First-seen wins: the first item declaring `name` is the one kept. */
  lemma {:induction false} ServicesFirstSeen(items: seq<Value>, j: nat)
    requires AddServices(map[], items).Ok?
    requires j < |items| && items[j].Dict?
    requires forall i :: 0 <= i < j ==> !Declares(items[i], Get(items[j].fields, "name"))
    ensures var name := Get(items[j].fields, "name");
            name in AddServices(map[], items).value && AddServices(map[], items).value[name] == items[j].fields
  {
    var name := Get(items[j].fields, "name");
    var init := items[..|items| - 1];
    var before := AddServices(map[], init);
    if j < |items| - 1 {
      ServicesFirstSeen(init, j);
    } else {
      ServicesUndeclared(init, name);
    }
  }

  /** A name no item declares is not gathered. */
  lemma {:induction false} ServicesUndeclared(items: seq<Value>, name: Value)
    requires AddServices(map[], items).Ok?
    requires forall i :: 0 <= i < |items| ==> !Declares(items[i], name)
    ensures name !in AddServices(map[], items).value
  {
    if items != [] {
      var init := items[..|items| - 1];
      assert forall i :: 0 <= i < |init| ==> init[i] == items[i];
      ServicesUndeclared(init, name);
    }
  }

  /** Gathering `a + b` is gathering `a`, then `b`. */
  lemma {:induction false} AddServicesAppend(acc: map<Value, Record>, a: seq<Value>, b: seq<Value>)
    requires AddServices(acc, a).Ok?
    ensures AddServices(acc, a + b) == AddServices(AddServices(acc, a).value, b)
  {
    if b == [] {
      assert a + b == a;
    } else {
      var init := b[..|b| - 1];
      assert (a + b)[..|a + b| - 1] == a + init;
      assert (a + b)[|a + b| - 1] == b[|b| - 1];
      AddServicesAppend(acc, a, init);
    }
  }

  /** The loop over one host's `sd_services` list. */
  method GatherServices(acc: map<Value, Record>, items: seq<Value>) returns (r: Result<map<Value, Record>>)
    ensures r == AddServices(acc, items)
  {
    var services := acc;
    var i := 0;
    while i < |items|
      invariant 0 <= i <= |items|
      invariant AddServices(acc, items[..i]) == Ok(services)
    {
      assert items[..i + 1][..i] == items[..i];
      var item := items[i];
      if !item.Dict? {
        ServicesErrorPersists(acc, items, i + 1);
        return Err(Raised(AttributeError));
      }
      var name := Get(item.fields, "name");
      if Unhashable(name) {
        ServicesErrorPersists(acc, items, i + 1);
        return Err(Raised(TypeError));
      }
      if name !in services {
        services := services[name := item.fields];
      }
      i := i + 1;
    }
    assert items[..i] == items;
    r := Ok(services);
  }

  lemma {:induction false} ServicesErrorPersists(acc: map<Value, Record>, items: seq<Value>, n: nat)
    requires n <= |items| && AddServices(acc, items[..n]).Err?
    ensures AddServices(acc, items) == AddServices(acc, items[..n])
    decreases |items| - n
  {
    if n < |items| {
      assert items[..n + 1][..n] == items[..n];
      ServicesErrorPersists(acc, items, n + 1);
    } else {
      assert items[..n] == items;
    }
  }

  // ---------------------------------------------------------------------
  // Named alerts

  /** `for name in m: if not acc.has_key(name): acc[name] = m[name]`. */
  function AddNamed(acc: map<string, Value>, m: map<string, Value>): (r: map<string, Value>)
    ensures r.Keys == acc.Keys + m.Keys
    ensures forall k :: k in acc ==> r[k] == acc[k]
    ensures forall k :: k in m && k !in acc ==> r[k] == m[k]
  {
    map k | k in acc.Keys + m.Keys :: if k in acc then acc[k] else m[k]
  }

  /** The loop over the names of a host's alert dict, as the source does it. */
  method GatherNamed(acc: map<string, Value>, m: map<string, Value>) returns (r: map<string, Value>)
    ensures r == AddNamed(acc, m)
  {
    r := acc;
    var names := m.Keys;
    while names != {}
      invariant names <= m.Keys
      invariant r.Keys == acc.Keys + (m.Keys - names)
      invariant forall k :: k in acc ==> r[k] == acc[k]
      invariant forall k :: k in r && k !in acc ==> r[k] == m[k]
      decreases names
    {
      var name :| name in names;
      if name !in r {
        r := r[name := m[name]];
      }
      names := names - {name};
    }
  }

  /** The device group alerts gathered under one group. */
  function GroupEntry(groups: map<Value, map<string, Value>>, group: Value): map<string, Value>
  {
    if group in groups then groups[group] else map[]
  }

  /** A host's device group alerts go under its group; the group gets an
      entry only when the host declares at least one alert. */
  function AddGroupAlerts(acc: map<Value, map<string, Value>>, group: Value, m: map<string, Value>)
    : Result<map<Value, map<string, Value>>>
  {
    if |m| == 0 then Ok(acc)
    else if Unhashable(group) then Err(Raised(TypeError))
    else Ok(acc[group := AddNamed(GroupEntry(acc, group), m)])
  }

  /** The loop over a host's `sd_devicegroup_alerts`. The source re-reads
      and re-stores the group's entry on every name; only the entry's final
      value is observable, so the names go through GatherNamed on it. */
  method GatherGroupAlerts(acc: map<Value, map<string, Value>>, group: Value, m: map<string, Value>)
    returns (r: Result<map<Value, map<string, Value>>>)
    ensures r == AddGroupAlerts(acc, group, m)
  {
    if |m| == 0 {
      return Ok(acc);
    }
    if Unhashable(group) {
      return Err(Raised(TypeError));
    }
    var alerts := GatherNamed(GroupEntry(acc, group), m);
    r := Ok(acc[group := alerts]);
  }

  // ---------------------------------------------------------------------
  // One host, all hosts

  /** The alert dict under `key` in a host's variables, as the loop reads it. */
  function AlertDict(vars: Record, key: string): Result<map<string, Value>>
  {
    var v := Get(vars, key);
    if !Truthy(v) then Ok(map[])
    else if !v.Dict? then Err(Raised(NotADict(v)))
    else Ok(v.fields)
  }

  /** What `for name in v` goes over when `v` is truthy but not a dict: a
      list's items or a string's characters; a number or a bool cannot be
      iterated. */
  function NonDictNames(v: Value): (r: Result<seq<Value>>)
    ensures v.List? ==> r == Ok(v.items)
    ensures v.Str? ==> r == Ok(Chars(v.s))
    ensures !v.List? && !v.Str? ==> r == Err(Raised(TypeError))
  {
    match v
    case List(items) => Ok(items)
    case Str(s) => Ok(Chars(s))
    case _ => Err(Raised(TypeError))
  }

  /** A name the gathered service group alerts already hold. */
  predicate Known(acc: map<string, Value>, name: Value)
  {
    name.Str? && name.s in acc
  }

  /** The service group loop over the names of a truthy value that is not
      a dict: a known name is skipped by the `has_key` test; an unhashable
      one makes `has_key` raise TypeError; any other reaches `.get` on the
      value, which is an AttributeError. */
  function SkipKnownNames(acc: map<string, Value>, names: seq<Value>): (r: Result<()>)
    ensures r.Ok? <==> forall k :: 0 <= k < |names| ==> Known(acc, names[k])
  {
    if names == [] then Ok(())
    else
      assert forall k :: 1 <= k < |names| ==> names[1..][k - 1] == names[k];
      if Unhashable(names[0]) then Err(Raised(TypeError))
      else if Known(acc, names[0]) then SkipKnownNames(acc, names[1..])
      else Err(Raised(AttributeError))
  }

  /** The error comes from the first unknown name: TypeError when it is
      unhashable, AttributeError otherwise. */
  lemma {:induction false} SkipKnownNamesError(acc: map<string, Value>, names: seq<Value>)
    requires SkipKnownNames(acc, names).Err?
    ensures exists k :: 0 <= k < |names| && !Known(acc, names[k]) &&
              (forall j :: 0 <= j < k ==> Known(acc, names[j])) &&
              SkipKnownNames(acc, names).error == Raised(if Unhashable(names[k]) then TypeError else AttributeError)
  {
    if !Unhashable(names[0]) && Known(acc, names[0]) {
      SkipKnownNamesError(acc, names[1..]);
      var k :| 0 <= k < |names[1..]| && !Known(acc, names[1..][k]) &&
               (forall j :: 0 <= j < k ==> Known(acc, names[1..][j])) &&
               SkipKnownNames(acc, names[1..]).error == Raised(if Unhashable(names[1..][k]) then TypeError else AttributeError);
      assert names[k + 1] == names[1..][k];
      assert forall j :: 1 <= j < k + 1 ==> names[j] == names[1..][j - 1];
      assert !Known(acc, names[k + 1]) && forall j :: 0 <= j < k + 1 ==> Known(acc, names[j]);
    } else {
      assert !Known(acc, names[0]);
    }
  }

  /** The loop of `SkipKnownNames`, name by name. */
  method ScanNames(acc: map<string, Value>, names: seq<Value>) returns (r: Result<()>)
    ensures r == SkipKnownNames(acc, names)
  {
    var i := 0;
    while i < |names|
      invariant 0 <= i <= |names|
      invariant SkipKnownNames(acc, names) == SkipKnownNames(acc, names[i..])
    {
      assert names[i..][1..] == names[i + 1..];
      if Unhashable(names[i]) {
        return Err(Raised(TypeError));
      }
      if !Known(acc, names[i]) {
        return Err(Raised(AttributeError));
      }
      i := i + 1;
    }
    assert names[i..] == [];
    return Ok(());
  }

  /** A host's `sd_servicegroup_alerts` added to the gathered ones: a dict
      adds its new names; any other truthy value adds nothing and raises
      unless every name it iterates is already known. */
  function AddServicegroupAlerts(acc: map<string, Value>, v: Value): (r: Result<map<string, Value>>)
    ensures !Truthy(v) ==> r == Ok(acc)
    ensures Truthy(v) && v.Dict? ==> r == Ok(AddNamed(acc, v.fields))
    ensures Truthy(v) && !v.Dict? ==>
              (r.Ok? <==> NonDictNames(v).Ok? && forall k :: 0 <= k < |NonDictNames(v).value| ==> Known(acc, NonDictNames(v).value[k]))
    ensures r.Ok? && !v.Dict? ==> r == Ok(acc)
  {
    if !Truthy(v) then Ok(acc)
    else if v.Dict? then Ok(AddNamed(acc, v.fields))
    else
      var names := NonDictNames(v);
      if names.Err? then Err(names.error)
      else
        var skipped := SkipKnownNames(acc, names.value);
        if skipped.Err? then Err(skipped.error) else Ok(acc)
  }

  /** A successful step adds the dict's names, or nothing. */
  lemma ServicegroupAdds(acc: map<string, Value>, v: Value)
    requires AddServicegroupAlerts(acc, v).Ok?
    ensures AddServicegroupAlerts(acc, v) == Ok(AddNamed(acc, if v.Dict? then v.fields else map[]))
  {
    assert AddNamed(acc, map[]) == acc;
  }

  /** A string value is iterated by character: it passes exactly when each
      of its characters is itself a gathered name, and otherwise raises
      AttributeError at `.get`. */
  lemma StringServicegroupValue(acc: map<string, Value>, s: string)
    ensures AddServicegroupAlerts(acc, Str(s)).Ok? <==> forall k :: 0 <= k < |s| ==> [s[k]] in acc
    ensures AddServicegroupAlerts(acc, Str(s)).Ok? ==> AddServicegroupAlerts(acc, Str(s)) == Ok(acc)
    ensures AddServicegroupAlerts(acc, Str(s)).Err? ==> AddServicegroupAlerts(acc, Str(s)) == Err(Raised(AttributeError))
  {
    var names := Chars(s);
    assert forall k :: 0 <= k < |s| ==> (Known(acc, names[k]) <==> [s[k]] in acc);
    if s != "" && SkipKnownNames(acc, names).Err? {
      SkipKnownNamesError(acc, names);
      var k :| 0 <= k < |names| && !Known(acc, names[k]) &&
               (forall j :: 0 <= j < k ==> Known(acc, names[j])) &&
               SkipKnownNames(acc, names).error == Raised(if Unhashable(names[k]) then TypeError else AttributeError);
      assert !Unhashable(names[k]);
    }
  }

  /** So a gathered name of several characters does not pass: "cpu"
      raises unless "c", "p" and "u" are gathered too. */
  lemma LongServicegroupNameRaises(x: Value)
    ensures AddServicegroupAlerts(map["cpu" := x], Str("cpu")) == Err(Raised(AttributeError))
  {
    StringServicegroupValue(map["cpu" := x], "cpu");
    assert "cpu"[0] == 'c' && ['c'] != "cpu";
  }

  /** The services list in a host's variables. */
  function ServiceList(vars: Record): Result<seq<Value>>
  {
    var v := Get(vars, "sd_services");
    if !Truthy(v) then Ok([])
    else if !v.List? then Err(Raised(NotAList(v)))
    else Ok(v.items)
  }

  /** What the host loop of `run` gathers from one host's variables. */
  function AddHost(d: Decls, vars: Record): Result<Decls>
  {
    var items := ServiceList(vars);
    if items.Err? then Err(items.error)
    else
      var services := AddServices(d.services, items.value);
      if services.Err? then Err(services.error)
      else
        var dg := AlertDict(vars, "sd_devicegroup_alerts");
        if dg.Err? then Err(dg.error)
        else
          var groups := AddGroupAlerts(d.devicegroupAlerts, HostGroup(vars), dg.value);
          if groups.Err? then Err(groups.error)
          else
            var sg := AddServicegroupAlerts(d.servicegroupAlerts, Get(vars, "sd_servicegroup_alerts"));
            if sg.Err? then Err(sg.error)
            else Ok(Decls(services.value, groups.value, sg.value))
  }

  /** The declarations gathered over the hosts, in host order. */
  function Gather(hosts: seq<Record>): Result<Decls>
  {
    if hosts == [] then Ok(NoDecls)
    else
      var before := Gather(hosts[..|hosts| - 1]);
      if before.Err? then before else AddHost(before.value, hosts[|hosts| - 1])
  }

  /** A host that sets only `sd_servicegroup_alerts` adds exactly its
      service group step. */
  lemma OnlyServicegroupAlerts(d: Decls, v: Value)
    ensures var sg := AddServicegroupAlerts(d.servicegroupAlerts, v);
            AddHost(d, map["sd_servicegroup_alerts" := v]) ==
              if sg.Err? then Err(sg.error) else Ok(Decls(d.services, d.devicegroupAlerts, sg.value))
  {
    var vars := map["sd_servicegroup_alerts" := v];
    assert Get(vars, "sd_services") == Null && Get(vars, "sd_devicegroup_alerts") == Null;
    assert ServiceList(vars) == Ok([]);
    assert AddServices(d.services, []) == Ok(d.services);
    assert AlertDict(vars, "sd_devicegroup_alerts") == Ok(map[]);
    assert AddGroupAlerts(d.devicegroupAlerts, HostGroup(vars), map[]) == Ok(d.devicegroupAlerts);
  }

  /** Gathering two hosts. */
  lemma GatherTwo(a: Record, b: Record)
    ensures Gather([a]) == AddHost(NoDecls, a)
    ensures Gather([a, b]) == if Gather([a]).Err? then Gather([a]) else AddHost(Gather([a]).value, b)
  {
    assert [a][..0] == [] && [a, b][..1] == [a];
  }

  /** The gathered service group alerts after a host declaring "a". */
  lemma DeclaringHost(x: Value)
    ensures Gather([map["sd_servicegroup_alerts" := Dict(map["a" := x])]]) == Ok(Decls(map[], map[], map["a" := x]))
  {
    var h1 := map["sd_servicegroup_alerts" := Dict(map["a" := x])];
    GatherTwo(h1, h1);
    OnlyServicegroupAlerts(NoDecls, Dict(map["a" := x]));
    assert AddNamed(map[], map["a" := x]) == map["a" := x];
  }

  /** A later host whose `sd_servicegroup_alerts` is just the string "a"
      goes through once "a" is gathered. */
  lemma KnownServicegroupNameSkipped(x: Value)
    ensures Gather([map["sd_servicegroup_alerts" := Dict(map["a" := x])], map["sd_servicegroup_alerts" := Str("a")]])
            == Ok(Decls(map[], map[], map["a" := x]))
  {
    var h1 := map["sd_servicegroup_alerts" := Dict(map["a" := x])];
    var d1 := Decls(map[], map[], map["a" := x]);
    DeclaringHost(x);
    GatherTwo(h1, map["sd_servicegroup_alerts" := Str("a")]);
    OnlyServicegroupAlerts(d1, Str("a"));
    assert Chars("a") == [Str("a")];
    assert SkipKnownNames(d1.servicegroupAlerts, [Str("a")]) == Ok(());
  }

  /** A later host whose value is a list holding a list raises TypeError
      from `has_key`, before any `.get`. */
  lemma UnhashableServicegroupName(x: Value)
    ensures Gather([map["sd_servicegroup_alerts" := Dict(map["a" := x])],
                    map["sd_servicegroup_alerts" := List([List([Str("a")])])]])
            == Err(Raised(TypeError))
  {
    var h1 := map["sd_servicegroup_alerts" := Dict(map["a" := x])];
    var d1 := Decls(map[], map[], map["a" := x]);
    DeclaringHost(x);
    GatherTwo(h1, map["sd_servicegroup_alerts" := List([List([Str("a")])])]);
    OnlyServicegroupAlerts(d1, List([List([Str("a")])]));
  }

  /** The host loop's gathering step for one host. */
  method GatherHost(d: Decls, vars: Record) returns (r: Result<Decls>)
    ensures r == AddHost(d, vars)
  {
    var hostServices := Get(vars, "sd_services");
    var services := d.services;
    if Truthy(hostServices) {
      if !hostServices.List? {
        return Err(Raised(NotAList(hostServices)));
      }
      var s := GatherServices(services, hostServices.items);
      if s.Err? { return Err(s.error); }
      services := s.value;
    } else {
      assert AddServices(services, []) == Ok(services);
    }
    assert ServiceList(vars).Ok? && AddServices(d.services, ServiceList(vars).value) == Ok(services);
    var group := HostGroup(vars);
    var groups := d.devicegroupAlerts;
    var dg := Get(vars, "sd_devicegroup_alerts");
    if Truthy(dg) {
      if !dg.Dict? {
        return Err(Raised(NotADict(dg)));
      }
      var g := GatherGroupAlerts(groups, group, dg.fields);
      if g.Err? { return Err(g.error); }
      groups := g.value;
    } else {
      assert AddGroupAlerts(groups, group, map[]) == Ok(groups);
    }
    assert AlertDict(vars, "sd_devicegroup_alerts").Ok?;
    assert AddGroupAlerts(d.devicegroupAlerts, group, AlertDict(vars, "sd_devicegroup_alerts").value) == Ok(groups);
    var named := d.servicegroupAlerts;
    var sg := Get(vars, "sd_servicegroup_alerts");
    if Truthy(sg) {
      if sg.Dict? {
        named := GatherNamed(named, sg.fields);
      } else {
        var names := NonDictNames(sg);
        if names.Err? {
          return Err(names.error);
        }
        var skipped := ScanNames(named, names.value);
        if skipped.Err? {
          return Err(skipped.error);
        }
      }
    }
    assert AddServicegroupAlerts(d.servicegroupAlerts, sg) == Ok(named);
    r := Ok(Decls(services, groups, named));
  }

  /** The service group alerts a host can contribute: its dict, or none. */
  function ServicegroupOf(vars: Record): map<string, Value>
  {
    var v := Get(vars, "sd_servicegroup_alerts");
    if v.Dict? then v.fields else map[]
  }

  function DevicegroupOf(vars: Record): map<string, Value>
  {
    var r := AlertDict(vars, "sd_devicegroup_alerts");
    if r.Ok? then r.value else map[]
  }

  lemma {:induction false} GatherPrefixOk(hosts: seq<Record>)
    requires Gather(hosts).Ok? && hosts != []
    ensures Gather(hosts[..|hosts| - 1]).Ok?
    ensures Gather(hosts) == AddHost(Gather(hosts[..|hosts| - 1]).value, hosts[|hosts| - 1])
  {
  }

  /** The parts of a successful host step. */
  lemma AddHostParts(d: Decls, vars: Record)
    requires AddHost(d, vars).Ok?
    ensures var r := AddHost(d, vars).value;
            ServiceList(vars).Ok? &&
            AddServices(d.services, ServiceList(vars).value) == Ok(r.services) &&
            AddGroupAlerts(d.devicegroupAlerts, HostGroup(vars), DevicegroupOf(vars)) == Ok(r.devicegroupAlerts) &&
            r.servicegroupAlerts == AddNamed(d.servicegroupAlerts, ServicegroupOf(vars))
  {
    var dg := AlertDict(vars, "sd_devicegroup_alerts");
    assert dg.Ok? && DevicegroupOf(vars) == dg.value;
    ServicegroupAdds(d.servicegroupAlerts, Get(vars, "sd_servicegroup_alerts"));
  }

  /** Every gathered service group alert name was declared by some host. */
  lemma {:induction false} ServicegroupDeclared(hosts: seq<Record>, name: string)
    requires Gather(hosts).Ok? && name in Gather(hosts).value.servicegroupAlerts
    ensures exists h :: 0 <= h < |hosts| && name in ServicegroupOf(hosts[h])
  {
    var init := hosts[..|hosts| - 1];
    GatherPrefixOk(hosts);
    AddHostParts(Gather(init).value, hosts[|hosts| - 1]);
    if name in Gather(init).value.servicegroupAlerts {
      ServicegroupDeclared(init, name);
      var h :| 0 <= h < |init| && name in ServicegroupOf(init[h]);
      assert hosts[h] == init[h];
    } else {
      assert name in ServicegroupOf(hosts[|hosts| - 1]);
    }
  }

  /** A service group alert name no host declares is not gathered. */
  lemma {:induction false} ServicegroupUndeclared(hosts: seq<Record>, name: string)
    requires Gather(hosts).Ok?
    requires forall i :: 0 <= i < |hosts| ==> name !in ServicegroupOf(hosts[i])
    ensures name !in Gather(hosts).value.servicegroupAlerts
  {
    if hosts != [] {
      var init := hosts[..|hosts| - 1];
      GatherPrefixOk(hosts);
      AddHostParts(Gather(init).value, hosts[|hosts| - 1]);
      assert forall i :: 0 <= i < |init| ==> init[i] == hosts[i];
      ServicegroupUndeclared(init, name);
    }
  }

  /** First-seen wins for service group alerts: the first host declaring a
      name decides the alert kept under it. */
  lemma {:induction false} ServicegroupFirstSeen(hosts: seq<Record>, h: nat, name: string)
    requires Gather(hosts).Ok?
    requires h < |hosts| && name in ServicegroupOf(hosts[h])
    requires forall i :: 0 <= i < h ==> name !in ServicegroupOf(hosts[i])
    ensures name in Gather(hosts).value.servicegroupAlerts
    ensures Gather(hosts).value.servicegroupAlerts[name] == ServicegroupOf(hosts[h])[name]
  {
    var init := hosts[..|hosts| - 1];
    GatherPrefixOk(hosts);
    AddHostParts(Gather(init).value, hosts[|hosts| - 1]);
    if h < |hosts| - 1 {
      ServicegroupFirstSeen(init, h, name);
    } else {
      assert forall i :: 0 <= i < |init| ==> init[i] == hosts[i];
      ServicegroupUndeclared(init, name);
    }
  }

  /** A host step changes only its own group's entry, and that by AddNamed. */
  lemma GroupEntryStep(acc: map<Value, map<string, Value>>, own: Value, m: map<string, Value>, group: Value)
    requires AddGroupAlerts(acc, own, m).Ok?
    ensures GroupEntry(AddGroupAlerts(acc, own, m).value, group) ==
            if group == own then AddNamed(GroupEntry(acc, group), m) else GroupEntry(acc, group)
  {
    if |m| == 0 {
      assert m == map[];
      assert AddNamed(GroupEntry(acc, group), m) == GroupEntry(acc, group);
    }
  }

  /** Every gathered (group, name) device group alert was declared by a
      host of that group. */
  lemma {:induction false} DevicegroupDeclared(hosts: seq<Record>, group: Value, name: string)
    requires Gather(hosts).Ok?
    requires name in GroupEntry(Gather(hosts).value.devicegroupAlerts, group)
    ensures exists h :: 0 <= h < |hosts| && HostGroup(hosts[h]) == group && name in DevicegroupOf(hosts[h])
  {
    var init := hosts[..|hosts| - 1];
    var last := hosts[|hosts| - 1];
    GatherPrefixOk(hosts);
    var before := Gather(init).value;
    AddHostParts(before, last);
    GroupEntryStep(before.devicegroupAlerts, HostGroup(last), DevicegroupOf(last), group);
    if name in GroupEntry(before.devicegroupAlerts, group) {
      DevicegroupDeclared(init, group, name);
      var h :| 0 <= h < |init| && HostGroup(init[h]) == group && name in DevicegroupOf(init[h]);
      assert hosts[h] == init[h];
    } else {
      assert HostGroup(last) == group && name in DevicegroupOf(last);
    }
  }

  /** A (group, name) no host of that group declares is not gathered. */
  lemma {:induction false} DevicegroupUndeclared(hosts: seq<Record>, group: Value, name: string)
    requires Gather(hosts).Ok?
    requires forall i :: 0 <= i < |hosts| && HostGroup(hosts[i]) == group ==> name !in DevicegroupOf(hosts[i])
    ensures name !in GroupEntry(Gather(hosts).value.devicegroupAlerts, group)
  {
    if hosts != [] {
      var init := hosts[..|hosts| - 1];
      var last := hosts[|hosts| - 1];
      GatherPrefixOk(hosts);
      var before := Gather(init).value;
      AddHostParts(before, last);
      GroupEntryStep(before.devicegroupAlerts, HostGroup(last), DevicegroupOf(last), group);
      assert forall i :: 0 <= i < |init| ==> init[i] == hosts[i];
      DevicegroupUndeclared(init, group, name);
    }
  }

  /** First-seen wins for device group alerts, per group and alert name;
      a host without `sd_group` counts as group 'All others'. */
  lemma {:induction false} DevicegroupFirstSeen(hosts: seq<Record>, h: nat, name: string)
    requires Gather(hosts).Ok?
    requires h < |hosts| && name in DevicegroupOf(hosts[h])
    requires forall i :: 0 <= i < h && HostGroup(hosts[i]) == HostGroup(hosts[h]) ==> name !in DevicegroupOf(hosts[i])
    ensures var entry := GroupEntry(Gather(hosts).value.devicegroupAlerts, HostGroup(hosts[h]));
            name in entry && entry[name] == DevicegroupOf(hosts[h])[name]
  {
    var init := hosts[..|hosts| - 1];
    var last := hosts[|hosts| - 1];
    var group := HostGroup(hosts[h]);
    GatherPrefixOk(hosts);
    var before := Gather(init).value;
    AddHostParts(before, last);
    GroupEntryStep(before.devicegroupAlerts, HostGroup(last), DevicegroupOf(last), group);
    if h < |hosts| - 1 {
      DevicegroupFirstSeen(init, h, name);
    } else {
      assert forall i :: 0 <= i < |init| ==> init[i] == hosts[i];
      DevicegroupUndeclared(init, group, name);
    }
  }

  /** All the service items of the hosts, in host order. */
  function AllServiceItems(hosts: seq<Record>): seq<Value>
  {
    if hosts == [] then []
    else
      var items := ServiceList(hosts[|hosts| - 1]);
      AllServiceItems(hosts[..|hosts| - 1]) + (if items.Ok? then items.value else [])
  }

  /** The gathered services are those of one pass over all hosts' service
      items in host order, so ServicesFirstSeen applies across hosts. */
  lemma {:induction false} GatheredServices(hosts: seq<Record>)
    requires Gather(hosts).Ok?
    ensures AddServices(map[], AllServiceItems(hosts)) == Ok(Gather(hosts).value.services)
  {
    if hosts != [] {
      var init := hosts[..|hosts| - 1];
      var last := hosts[|hosts| - 1];
      GatherPrefixOk(hosts);
      var before := Gather(init).value;
      AddHostParts(before, last);
      GatheredServices(init);
      AddServicesAppend(map[], AllServiceItems(init), ServiceList(last).value);
      assert AllServiceItems(hosts) == AllServiceItems(init) + ServiceList(last).value;
    }
  }
}
