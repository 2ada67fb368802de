# ServerDensity inventory sync, modelled in Dafny

This project models the two Python programs that bring a ServerDensity account in line with an Ansible inventory.

**The action plugin** (`action_plugins/serverdensity.py`, class `ActionModule`) works in four steps:

1. It downloads the account's devices, services, alerts and users once. A cache file and the `all` group's variables memoise these downloads; notifications come from a file beside the inventory.
2. It gathers each host's declarations first-seen-wins. These are its services, its device group alerts (filed under its `sd_group`, or `All others`) and its service group alerts.
3. It creates every missing device, service and alert. It updates the ones that exist only when `force` is set, and never sends a request for a hit that is not forced.
4. When `cleanup` is set, it deletes every downloaded alert that no declaration matched.

Alert matching is by natural key. Among the candidates the scoring loop keeps one, and that alert is marked `ansible_updated` in place.

**The standalone script** (`ansible-serverdensity.py`) holds:

- a smaller client, `ServerDensity`, whose form encoding and error text differ from the plugin's;
- the rule that picks the API token;
- the rule that picks the exit code after fact gathering.

The modules follow the programs' structure:

| file | module | what it holds |
|---|---|---|
| `values.dfy` | `PyValues` | The Python values the code handles: dicts as `map<string, Value>`, Python `==` (`PyEq`), truthiness, `dict.get`, `str()` of numbers and bools, and the exceptions that escape. |
| `api.dfy` | `Api` | Requests and replies of both clients: the two form encodings, the two error texts, and a listing reply as records. |
| `matching.dfy` | `Matching` | The natural-key lookups and the alert candidate rule. Also Python's remove-while-iterating, the recipients list and the cleanup's DELETE requests. |
| `declarations.dfy` | `Declarations` | The first-seen-wins gathering of the hosts' declarations in `run`. |
| `reconcile.dfy` | `Reconcile` | The create/update/skip rule, the device record, the agent keys, the completed alert config, the alert match, and the predicates over the request log. |
| `plugin.dfy` | `Plugin` | Class `ActionModule`, whose methods change the collections, the cache files, the inventory variables and the request log. |
| `standalone.dfy` | `Standalone` | Class `ServerDensity`, the token rule and the exit-code rule. |

How the outside world is modelled:

- **The HTTP API** is a function `server` from the requests sent so far and the next request to a response. Every request is appended to `log`.
- **The JSON encoder** is a parameter `encode` whose results are non-empty strings. Decoded content is a `Value`.
- **Cache files** are a map from file name to the snapshot of the five collections.
- **The inventory** is a sequence of hosts with their variables.

### Behaviour of the code as written

The model follows the code in each of these cases:

- `_get_alert_id` does not pick the best-scoring candidate. It resets `check_level` once, before the loop, so scores accumulate. The candidate it keeps is the last one that matches `comparison` or `value`, or the first candidate when none does (`Matching.AsWrittenChoice`). `Matching.AsWrittenPrefersLaterHit` gives two alerts where a best-score rule would pick the other one.
- Every module argument given as `key=value` is a string. So `force=no` or `cleanup=false` is truthy and turns the option on.
- On an update, `ensure_host` removes the old copies of the device from the list it is iterating. Of two adjacent copies, the second survives (`Matching.AdjacentDuplicateSurvives`).
- After a forced device update, `cache_update(False)` rewrites the cache file when it still exists, that is when nothing was created or deleted since the download (`Plugin.ActionModule.StoreDevice`). The file then also holds the `ansible_updated` marks set so far. A later run that loads it never offers those alerts as candidates, and its cleanup does not delete them.

## Model

| member | source | states |
|---|---|---|
| `PyValues.Get` | action_plugins/serverdensity.py:213-214 | `dict.get`: the entry under the key, or None when the key is absent. |
| `PyValues.Truthy` | action_plugins/serverdensity.py:77 | Python truthiness: None, `False`, zero and empty strings and collections are false. |
| `PyValues.PyEq` | action_plugins/serverdensity.py:213 | Python `==`: numbers compare by value across bool, int and float; lists and dicts compare element by element; other values by kind and content. Its laws are `PyEqReflexive`, `PyEqSymmetric` and `PyEqTransitive`. |
| `PyValues.PyEqReflexive` | action_plugins/serverdensity.py:234 | The model of Python `==` holds of every value with itself, nested lists and dicts included. |
| `PyValues.PyEqSymmetric` | action_plugins/serverdensity.py:234 | The model of `==` is symmetric. |
| `PyValues.PyEqTransitive` | action_plugins/serverdensity.py:234 | The model of `==` is transitive, across numeric types as well. |
| `PyValues.PyEqDictGet` | action_plugins/serverdensity.py:213 | Equal dicts give equal results for `get` of every key. |
| `PyValues.Digits` | action_plugins/serverdensity.py:185-186 | The decimal text of a natural number is non-empty and made of digits only. |
| `PyValues.IntText` | action_plugins/serverdensity.py:185-186 | `str()` of an int is non-empty and starts with `-` exactly when the int is negative. |
| `PyValues.DigitsRoundTrip` | action_plugins/serverdensity.py:185-186 | Reading back the digits of `str(n)` gives `n`. |
| `PyValues.IntTextRoundTrip` | action_plugins/serverdensity.py:185-186 | Every int survives `str()` followed by parsing, so the form text determines the number. |
| `PyValues.Chars` | action_plugins/serverdensity.py:207 | Iterating a string yields one one-character string per character, in order. |
| `PyValues.CharsAppend` | action_plugins/serverdensity.py:207 | Iterating a concatenation yields the characters of each part in turn. |
| `Api.PluginForm` | action_plugins/serverdensity.py:178-188 | Only non-empty strings reach the plugin's form, under keys of the payload. None, floats, `''` and empty non-`recipients` collections never appear. Every bool does, and every int of Python type `int` (within `sys.maxint`) is sent as its decimal text; a `long` is dropped. A list or dict under `recipients` is always sent encoded, even when empty. |
| `Api.PluginField` | action_plugins/serverdensity.py:181-188 | One payload field of the plugin form: the encoded non-empty list or dict (or any `recipients`), the text of a plain int or a bool, or a non-empty string; nothing otherwise. `PluginForm` collects these. |
| `Api.MarshalPluginForm` | action_plugins/serverdensity.py:176-188 | The `postData` loop builds exactly `PluginForm`. |
| `Api.StandaloneForm` | ansible-serverdensity.py:226-236 | The standalone form holds only non-empty strings under payload keys. Falsy values other than ints are dropped, bools are always dropped. An int within `sys.maxint` is sent as its decimal text; a `long` is dropped. |
| `Api.StandaloneField` | ansible-serverdensity.py:229-236 | One payload field of the standalone form: as the plugin's, but a bool is dropped and `recipients` gets no exception. |
| `Api.MarshalStandaloneForm` | ansible-serverdensity.py:227-236 | The standalone `postData` loop builds exactly `StandaloneForm`. |
| `Api.FormsDiffer` | ansible-serverdensity.py:226-236 | The two encodings agree on every key the standalone client sends. The plugin sends more only for bools and for an empty `recipients` collection. |
| `Api.PluginRequest` | action_plugins/serverdensity.py:174-197 | A plugin request goes to the API base plus the path, with the token. A non-empty payload makes it a POST of `PluginForm`; otherwise it uses the verb asked for, with no body. |
| `Api.StandaloneRequest` | ansible-serverdensity.py:224-239 | A standalone request is a POST of `StandaloneForm` when the payload is non-empty, otherwise a GET without a body. |
| `Api.SuffixesAppend` | action_plugins/serverdensity.py:206-207 | Each further error adds ` // ` and its description at the end. |
| `Api.AppendDescriptionsText` | action_plugins/serverdensity.py:205-207 | Over well-formed error entries, the loop yields the message followed by ` // description` for each entry, in order. |
| `Api.AppendDescription` | action_plugins/serverdensity.py:207 | `msg += ' // ' + error['description']`: TypeError for an entry that is not a dict or a description that is not a string, KeyError for a missing one; a string grows by the text, a list by its characters. |
| `Api.AppendDescriptions` | action_plugins/serverdensity.py:206-207 | The loop over the error entries, in order, stopping at the first exception; `AppendDescriptionsText` and `AppendDescriptionsToList` give its result. |
| `Api.PluginFailure` | action_plugins/serverdensity.py:203-208 | The error of a non-200 reply: TypeError on non-dict content, KeyError without `message` or `errors`, the message alone when `errors` is falsy, else the message with the descriptions appended. |
| `Api.AppendDescriptionsToList` | action_plugins/serverdensity.py:205-207 | When the message is a list, `+=` extends it by the characters of every ` // description`, in order. |
| `Api.PluginFailureOfList` | action_plugins/serverdensity.py:204-208 | A failing reply whose message is a list raises AnsibleError with that list extended by the characters of the descriptions. |
| `Api.PluginFailureText` | action_plugins/serverdensity.py:203-208 | A non-200 reply with a string message and well-formed errors raises that message with every description appended in order. |
| `Api.BuildPluginFailure` | action_plugins/serverdensity.py:204-208 | The loop that builds the error text gives exactly `PluginFailure`, including Python's exceptions on malformed entries and the extension of a list message by single characters. |
| `Api.PrefixErrorPersists` | action_plugins/serverdensity.py:206-207 | Once an entry raises, the rest of the error list does not matter. |
| `Api.PluginReply` | action_plugins/serverdensity.py:201-209 | A reply is a success exactly when the status is 200, and the content is returned then. |
| `Api.StandaloneFailure` | ansible-serverdensity.py:242-243 | The standalone error text is the reply's `message` alone. A content that is not a dict raises TypeError. |
| `Api.StandaloneReply` | ansible-serverdensity.py:240-244 | A standalone reply is a success exactly when the status is 200. Otherwise it fails with `StandaloneFailure`. |
| `Api.FailuresAgreeWithoutErrors` | ansible-serverdensity.py:242-243 | When a reply lists no errors, both clients raise the same text. |
| `Api.AsRecords` | action_plugins/serverdensity.py:289 | A listing is kept exactly when it is a list of dicts, as those dicts, in order. |
| `Matching.FindIdFirstMatch` | action_plugins/serverdensity.py:211-227 | A lookup returns the `_id` of the first record whose key field equals the key. |
| `Matching.FindIdMiss` | action_plugins/serverdensity.py:211-227 | A lookup with no matching record returns `False`. |
| `Matching.FindIdSource` | action_plugins/serverdensity.py:211-227 | A lookup returns `False` or the `_id` of some matching record. |
| `Matching.FindId` | action_plugins/serverdensity.py:211-227 | The `_get_*_id` scan: the `_id` of the first record matching the criteria, `False` when none does. `FindIdFirstMatch`, `FindIdMiss` and `FindIdSource` state it. |
| `Matching.Lookup` | action_plugins/serverdensity.py:211-227 | The scan loop returns exactly `FindId`, the first match's `_id`. |
| `Matching.NotificationKeyNeedsBoth` | action_plugins/serverdensity.py:258-262 | A notification matches exactly when both its `type` and its `name` are equal to the key. |
| `Matching.Mark` | action_plugins/serverdensity.py:253 | A marked alert carries `ansible_updated`. |
| `Matching.Candidates` | action_plugins/serverdensity.py:230-235 | The candidates are exactly the positions of unmarked alerts equal on `subjectType`, `subjectId`, `section` and `field`, in increasing order. |
| `Matching.AsWrittenChoice` | action_plugins/serverdensity.py:239-250 | The candidate the accumulating score keeps is the last one that matches `comparison` or `value`, or the first candidate when none does. |
| `Matching.BestChoice` | action_plugins/serverdensity.py:239-250 | The reference rule, which the code does not follow: the earliest candidate with the highest score. |
| `Matching.ChoicesAgreeOnSingleHit` | action_plugins/serverdensity.py:239-250 | When at most one candidate matches `comparison` or `value`, the code's choice and the best-score rule agree. |
| `Matching.AsWrittenPrefersLaterHit` | action_plugins/serverdensity.py:240-250 | Two alerts where the code keeps the later, weaker match and the best-score rule keeps the earlier one. |
| `Matching.RemoveFirst` | action_plugins/serverdensity.py:378-380 | `list.remove` never makes a list longer. |
| `Matching.RemoveFirstAt` | action_plugins/serverdensity.py:378-380 | `list.remove` drops the first element equal to the argument. |
| `Matching.RemoveSkipsNonMatching` | action_plugins/serverdensity.py:377-380 | Elements whose hostname differs are stepped over without change. |
| `Matching.RemoveUniqueHostname` | action_plugins/serverdensity.py:377-380 | With a single device of that hostname, the loop removes exactly that device. |
| `Matching.AdjacentDuplicateSurvives` | action_plugins/serverdensity.py:377-380 | Of two adjacent devices with the same hostname, removing while iterating leaves the second one. |
| `Matching.RemoveWhileIterating` | action_plugins/serverdensity.py:377-380 | The removal loop of `ensure_host`, index by index over the list being shortened: a matching element removes its first copy. `RemoveSkipsNonMatching`, `RemoveUniqueHostname` and `AdjacentDuplicateSurvives` state its effect. |
| `Matching.RecipientsOf` | action_plugins/serverdensity.py:409-425 | The recipients are no more than the `notify` items, and each carries `type` and `id`, with `actions` only when it is truthy. |
| `Matching.RecipientsErrorPersists` | action_plugins/serverdensity.py:409-413 | Once a `notify` item raises, the later items do not matter. |
| `Matching.RecipientsAppend` | action_plugins/serverdensity.py:409-425 | The recipients of two stretches of `notify` are those of the first followed by those of the second. |
| `Matching.RecipientsOfOne` | action_plugins/serverdensity.py:414-425 | One item contributes its entry when its id lookup succeeded, and nothing otherwise. |
| `Matching.Unmarked` | action_plugins/serverdensity.py:455-457 | The unmarked positions are exactly the alerts without `ansible_updated`, in order. |
| `Matching.DeletesExactlyUnmarked` | action_plugins/serverdensity.py:454-459 | The cleanup sends one DELETE to `alerts/configs/<id>` for each unmarked alert, in order, and none for marked ones. |
| `Matching.DeleteOf` | action_plugins/serverdensity.py:457 | The DELETE of `alerts/configs/<id>` with the token and no body. |
| `Matching.DeleteRequests` | action_plugins/serverdensity.py:454-459 | One `DeleteOf` per unmarked alert in order, and a TypeError at the first unmarked alert whose `_id` is not a string. `DeletesExactlyUnmarked` states it. |
| `Declarations.HostGroup` | action_plugins/serverdensity.py:83-85 | A host's group is its `sd_group` when that is set, otherwise `All others`, and is never falsy. |
| `Declarations.ServicesFromItems` | action_plugins/serverdensity.py:76-81 | Service gathering keeps the services already gathered, and adds only services some item declared. |
| `Declarations.AddServices` | action_plugins/serverdensity.py:76-81 | The `sd_services` loop: each item's `name` is added unless already present, stopping at an item that is not a dict or an unhashable name. Its lemmas are `ServicesFromItems`, `ServicesFirstSeen` and `ServicesUndeclared`. |
| `Declarations.ServicesFirstSeen` | action_plugins/serverdensity.py:76-81 | The service gathered under a name is the first item that declares that name. |
| `Declarations.ServicesUndeclared` | action_plugins/serverdensity.py:76-81 | A name no item declares is not gathered. |
| `Declarations.AddServicesAppend` | action_plugins/serverdensity.py:76-81 | Gathering two stretches of services one after the other equals gathering them together. |
| `Declarations.GatherServices` | action_plugins/serverdensity.py:76-81 | The loop over `sd_services` gives exactly `AddServices`, errors included. |
| `Declarations.ServicesErrorPersists` | action_plugins/serverdensity.py:78-79 | Once a service item raises, the rest of the items do not matter. |
| `Declarations.AddNamed` | action_plugins/serverdensity.py:98-103 | Named alerts merge first-seen-wins: earlier entries are kept, and new names are added. |
| `Declarations.GatherNamed` | action_plugins/serverdensity.py:98-103 | The loop over a host's alert names gives exactly `AddNamed`. |
| `Declarations.GatherGroupAlerts` | action_plugins/serverdensity.py:87-96 | The loop over `sd_devicegroup_alerts` gives exactly `AddGroupAlerts`. |
| `Declarations.AddGroupAlerts` | action_plugins/serverdensity.py:88-96 | A host's device group alerts are merged first-seen-wins into its group's entry, which is created when missing; an empty dict changes nothing, and an unhashable group is a TypeError. |
| `Declarations.GatherHost` | action_plugins/serverdensity.py:76-103 | One host's declarations are gathered exactly as `AddHost` describes, in the order the loop raises its exceptions, including the `has_key` skip of service group names already gathered. |
| `Declarations.AddHost` | action_plugins/serverdensity.py:76-103 | One host's step: its services, then its device group alerts under its group, then its service group alerts, with the first exception raised. `AddHostParts` states what each part adds. |
| `Declarations.Gather` | action_plugins/serverdensity.py:68-103 | `AddHost` for each host in turn from no declarations, stopping at the first exception. `ServicegroupDeclared`, `DevicegroupFirstSeen`, `GatheredServices` and their neighbours state what it holds. |
| `Declarations.NonDictNames` | action_plugins/serverdensity.py:99 | Iterating a non-dict service group value yields a list's items or a string's characters; any other value raises TypeError. |
| `Declarations.SkipKnownNames` | action_plugins/serverdensity.py:99-103 | The `has_key` loop passes exactly when every name is a string already gathered. |
| `Declarations.SkipKnownNamesError` | action_plugins/serverdensity.py:99-103 | It fails at the first unknown name: TypeError when the name is unhashable, AttributeError (the `.get` on a non-dict) otherwise. |
| `Declarations.ScanNames` | action_plugins/serverdensity.py:99-103 | The loop over the names computes `SkipKnownNames`. |
| `Declarations.AddServicegroupAlerts` | action_plugins/serverdensity.py:98-103 | A falsy value adds nothing, a dict adds its unseen names, and any other value changes nothing when it passes the `has_key` loop. |
| `Declarations.ServicegroupAdds` | action_plugins/serverdensity.py:98-103 | Whenever the service group step succeeds, it adds the dict's unseen names, or nothing for a non-dict value. |
| `Declarations.KnownServicegroupNameSkipped` | action_plugins/serverdensity.py:98-103 | A host whose `sd_servicegroup_alerts` is the one-character string `"a"`, after a host declared group `a`, adds nothing and raises nothing. |
| `Declarations.StringServicegroupValue` | action_plugins/serverdensity.py:98-103 | A string value is iterated by character: it passes, adding nothing, exactly when each of its characters is a gathered name, and otherwise raises AttributeError. |
| `Declarations.LongServicegroupNameRaises` | action_plugins/serverdensity.py:98-103 | So a gathered name of several characters, `"cpu"`, raises AttributeError as a later host's value. |
| `Declarations.UnhashableServicegroupName` | action_plugins/serverdensity.py:98-103 | A list holding a list as a service group name raises TypeError. |
| `Declarations.GatherPrefixOk` | action_plugins/serverdensity.py:68-103 | The hosts are gathered one after another. |
| `Declarations.AddHostParts` | action_plugins/serverdensity.py:76-103 | A host adds its services, its device group alerts under its group and its service group alerts. |
| `Declarations.ServicegroupDeclared` | action_plugins/serverdensity.py:98-103 | Every gathered service group alert was declared by some host. |
| `Declarations.ServicegroupUndeclared` | action_plugins/serverdensity.py:98-103 | A service group alert no host declares is not gathered. |
| `Declarations.ServicegroupFirstSeen` | action_plugins/serverdensity.py:98-103 | A service group alert is the one the first declaring host gave. |
| `Declarations.GroupEntryStep` | action_plugins/serverdensity.py:87-96 | A host changes only its own group's entry. |
| `Declarations.DevicegroupDeclared` | action_plugins/serverdensity.py:87-96 | Every gathered device group alert was declared by a host of that group. |
| `Declarations.DevicegroupUndeclared` | action_plugins/serverdensity.py:87-96 | An alert no host of a group declares is not under that group. |
| `Declarations.DevicegroupFirstSeen` | action_plugins/serverdensity.py:87-96 | Under a group, an alert name maps to the alert the group's first declaring host gave. |
| `Declarations.GatheredServices` | action_plugins/serverdensity.py:68-81 | The gathered services are the first-seen-wins services of all hosts' `sd_services` together. |
| `Reconcile.Target` | action_plugins/serverdensity.py:366-372 | A lookup miss targets the collection. A hit that is not forced sends nothing. A forced hit targets `<collection>/<id>`, and a forced id that is not a string raises. |
| `Reconcile.AlertTarget` | action_plugins/serverdensity.py:439-445 | Alerts follow `Target`, except that a truthy numeric id raises from `len` before the force check. |
| `Reconcile.ReadsAreQuiet` | action_plugins/serverdensity.py:264-275 | A stretch of GETs neither updates nor deletes. |
| `Reconcile.LogGrows` | action_plugins/serverdensity.py:31-172 | The log properties of consecutive stretches hold of the two stretches together. |
| `Reconcile.QuietPost` | action_plugins/serverdensity.py:366-375 | What an unforced ensure sends goes to a creation URL. |
| `Reconcile.Add` | action_plugins/serverdensity.py:112 | Python `+`: strings and lists concatenate, and mismatched operands raise. |
| `Reconcile.OsCodeOfStrings` | action_plugins/serverdensity.py:112 | When the facts are strings, `os.code` is system, distribution, release and version, joined by spaces. |
| `Reconcile.OsCode` | action_plugins/serverdensity.py:112 | `os.code`: the four facts, defaulting to `''`, joined by spaces with Python `+`, raising like `+` on mismatched types. |
| `Reconcile.PublicIPs` | action_plugins/serverdensity.py:117 | The IPv4 and IPv6 address facts, defaulting to `''`, joined with Python `+`. |
| `Reconcile.HostArgs` | action_plugins/serverdensity.py:105-126 | The keyword arguments of `ensure_host`: AttributeError for facts or a location that is not a dict and the exceptions of `+` in `os.code` and `publicIPs`; otherwise the group, the name, the processor, memory, swap and address facts, the `os` and `location` dicts and `provider`. `HostArgsWellFormed` states the result. |
| `Reconcile.HostArgsWellFormed` | action_plugins/serverdensity.py:105-126 | With string facts and list addresses, `ensure_host` is called with the `os` dict, the concatenated addresses, the host name and the group. |
| `Reconcile.AddAllStrings` | action_plugins/serverdensity.py:112 | Adding strings concatenates them. |
| `Reconcile.DeviceData` | action_plugins/serverdensity.py:351-365 | The device payload has the 13 fields. `hostname` is the host, `name` falls back to the hostname, and every other field is the argument given. |
| `Reconcile.AgentKeysErrorPersists` | action_plugins/serverdensity.py:277-285 | Once a device name raises, the later devices do not matter. |
| `Reconcile.AgentKeyOfLast` | action_plugins/serverdensity.py:277-285 | An inventory host ends with the agent key of the last device named after it. |
| `Reconcile.AgentKeysUntouched` | action_plugins/serverdensity.py:277-285 | A host that no device names keeps its variables. |
| `Reconcile.AgentKeys` | action_plugins/serverdensity.py:277-285 | The agent keys after `_list_devices_agent_key`: each device named after an inventory host sets that host's key, in order, and an unhashable name is a TypeError. |
| `Reconcile.AlertConfig` | action_plugins/serverdensity.py:406-437 | The completed config keeps the declared config. It adds `group`, the `subjectType` given, and the `subjectId` (the device id, the service id, or the group). It adds the recipients, each a well-shaped entry. An alert that is not a dict raises AttributeError. |
| `Reconcile.SetItemError` | action_plugins/serverdensity.py:429 | `__setitem__` on a value that is not a dict (the config here, a service alert at line 156): TypeError on a list, AttributeError otherwise. |
| `Reconcile.SubjectId` | action_plugins/serverdensity.py:430-435 | The subject of an alert: the device of its `host`, the service of its `service`, or the group. |
| `Reconcile.ConfigKey` | action_plugins/serverdensity.py:439-441 | The natural key of a completed config: subject type, subject id, section and field. |
| `Reconcile.WithId` | action_plugins/serverdensity.py:450-451 | The config sent carries the match's `_id` exactly when there is a match. |
| `Reconcile.AlertMatch` | action_plugins/serverdensity.py:229-256 | A match keeps the number of alerts. |
| `Reconcile.AlertMatchMarksOne` | action_plugins/serverdensity.py:229-256 | A match changes at most one alert, an unmarked candidate, by marking it, and leaves marked alerts alone. A truthy id is the marked alert's. Some candidate is marked whenever one exists and none is empty; with no candidate, nothing changes and the id is `False`. |
| `Reconcile.MatchedAtMostOnce` | action_plugins/serverdensity.py:252-254 | An alert one match marked is left alone by every later match, so each fetched alert is matched at most once. |
| `Reconcile.MarkChangesAlert` | action_plugins/serverdensity.py:253 | Marking an unmarked alert changes it. |
| `Reconcile.CandidateNotEmpty` | action_plugins/serverdensity.py:234 | A candidate for a string subject type is never the empty dict, so the chosen one is always marked. |
| `Plugin.CollectCandidates` | action_plugins/serverdensity.py:230-235 | The candidate loop yields exactly `Candidates`. |
| `Plugin.ScoreCandidates` | action_plugins/serverdensity.py:239-250 | The scoring loop keeps exactly `AsWrittenChoice`. |
| `Plugin.Arguments` | action_plugins/serverdensity.py:36-39 | The arguments are `complex_args` overridden by the `key=value` pairs, which are strings. |
| `Plugin.NamedNotADict` | action_plugins/serverdensity.py:130-133 | A truthy alert dict that is not a dict raises AttributeError from `.get` when it is a string or a list with a string first, and TypeError otherwise. |
| `Plugin.ActionModule.constructor` | action_plugins/serverdensity.py:18-29 | A new plugin has no token, no cache, empty collections, no force, and has sent nothing. |
| `Plugin.ActionModule.Request` | action_plugins/serverdensity.py:174-209 | `_request` appends exactly `PluginRequest` to the log and returns the API's reply, with the error text on a non-200 status. |
| `Plugin.ActionModule.GetDeviceId` | action_plugins/serverdensity.py:211-215 | The first device with that hostname gives its `_id`, else `False`. |
| `Plugin.ActionModule.GetServiceId` | action_plugins/serverdensity.py:217-221 | The first service with that name gives its `_id`, else `False`. |
| `Plugin.ActionModule.GetUserId` | action_plugins/serverdensity.py:223-227 | The first user with that login gives its `_id`, else `False`. |
| `Plugin.ActionModule.GetNotificationId` | action_plugins/serverdensity.py:258-262 | The first notification with that type and name gives its `_id`, else `False`. |
| `Plugin.ActionModule.GetAlertId` | action_plugins/serverdensity.py:229-256 | Returns the id of `AlertMatch` and leaves exactly its alerts, the one chosen marked. |
| `Plugin.ActionModule.Recipients` | action_plugins/serverdensity.py:407-425 | The recipients loop yields exactly `RecipientList`. That is nothing for a falsy `notify`, and the exceptions Python raises on malformed items. |
| `Plugin.ActionModule.RemoveOldDevices` | action_plugins/serverdensity.py:377-380 | The removal loop leaves exactly `RemoveWhileIterating`. |
| `Plugin.ActionModule.CacheUpdate` | action_plugins/serverdensity.py:330-341 | The cache file gets the current collections when there is a cache name and the write is forced or the file exists. Otherwise no file changes. |
| `Plugin.ActionModule.CacheReset` | action_plugins/serverdensity.py:343-345 | The cache files become `WithoutCache` of the old ones: the cache file is gone, and nothing else changes. |
| `Plugin.WithoutCache` | action_plugins/serverdensity.py:343-345 | Removing the cache file drops exactly that name and keeps every other file; with no cache name nothing changes. |
| `Plugin.ActionModule.ListObjects` | action_plugins/serverdensity.py:264-275 | Memoised objects are returned without a request. Otherwise one GET is sent and a successful reply is memoised, with `changed` set. |
| `Plugin.ActionModule.ListDevicesAgentKey` | action_plugins/serverdensity.py:277-285 | The inventory hosts get exactly the agent keys of `AgentKeys`. |
| `Plugin.ActionModule.ListDevices` | action_plugins/serverdensity.py:287-291 | Devices are downloaded only when none are held, with GETs only, and then are the memoised listing. A fresh download, not a memo hit, sets exactly the agent keys of `AgentKeys`; otherwise the keys are unchanged. The memo only gains entries. |
| `Plugin.ActionModule.ListServices` | action_plugins/serverdensity.py:293-295 | Services are downloaded only when none are held, with GETs only. |
| `Plugin.ActionModule.ListAlerts` | action_plugins/serverdensity.py:297-299 | Alerts are downloaded only when none are held, with GETs only. |
| `Plugin.ActionModule.ListUsers` | action_plugins/serverdensity.py:301-303 | Users are downloaded only when none are held, with GETs only. |
| `Plugin.ActionModule.ListNotifications` | action_plugins/serverdensity.py:305-310 | Notifications come from the file beside the inventory, when it exists and none are held. |
| `Plugin.ActionModule.ListAll` | action_plugins/serverdensity.py:312-328 | An existing cache file is loaded without any request and leaves the memo alone. Otherwise the downloads send only GETs and end as `DownloadedAll` says. |
| `Plugin.ActionModule.LoadCache` | action_plugins/serverdensity.py:313-322 | With a cache file, the local copies become the file's snapshot and the agent keys are those of its devices. |
| `Plugin.ActionModule.DownloadAll` | action_plugins/serverdensity.py:323-328 | Only GETs are sent. On success each collection is its local copy or its memoised listing, the notifications are the file's, the agent keys follow a fresh device download, and a named cache file holds exactly these copies. No file changes on failure or without a cache name. |
| `Plugin.ActionModule.ListInventory` | action_plugins/serverdensity.py:323-324 | Devices, then services: both fetched, with the agent keys of a fresh device download. |
| `Plugin.ActionModule.ListAccount` | action_plugins/serverdensity.py:325-327 | Alerts, users and notifications: each fetched or read from the file. |
| `Plugin.ActionModule.EnsureHost` | action_plugins/serverdensity.py:347-389 | Creates on a miss after a cache reset, sends nothing and changes no file for an unforced hit, and updates `inventory/devices/<id>` when forced. The reply replaces the old copies, an existing cache file is rewritten, and the agent key goes to the inventory host. No DELETE is sent, and without force only creations. |
| `Plugin.ActionModule.SendDevice` | action_plugins/serverdensity.py:375-389 | Exactly one request, never a DELETE, and a creation when sent to the collection. A dict reply replaces the old copies of an updated device, rewrites the cache file when it exists, and sets the agent key. A failed or non-dict reply changes no file. |
| `Plugin.ActionModule.StoreDevice` | action_plugins/serverdensity.py:377-389 | The returned device is appended, after the old copies are removed on an update. `cache_update(False)` rewrites the cache file with the new collections exactly when it exists, and the host gets its agent key. |
| `Plugin.ActionModule.EnsureService` | action_plugins/serverdensity.py:391-404 | Creates on a miss after a cache reset and appends the reply. Sends nothing for an unforced hit, and updates a forced hit without touching `services`. The cache file is removed only on a creation. |
| `Plugin.ActionModule.EnsureAlert` | action_plugins/serverdensity.py:406-452 | A config that cannot be completed raises before any request and changes nothing. Otherwise the match is marked, and the config is created after a cache reset, skipped, or (when forced) sent to `alerts/configs/<id>` with `_id` set; no file changes except on a creation. |
| `Plugin.ActionModule.CompleteConfig` | action_plugins/serverdensity.py:407-437 | Completing the config yields exactly `AlertConfig`. |
| `Plugin.ActionModule.SendAlert` | action_plugins/serverdensity.py:439-452 | The alerts become those of `AlertMatch`, and its id is sent on as `SendMatched` says. |
| `Plugin.ActionModule.SendMatched` | action_plugins/serverdensity.py:440-452 | Following `AlertTarget`: a creation after a cache reset, nothing for an unforced hit, a forced update to `alerts/configs/<id>`, or the TypeError of a non-string id. No file changes except on a creation. |
| `Plugin.ActionModule.PostConfig` | action_plugins/serverdensity.py:452 | The config goes out as one request, never a DELETE, and only a creation when sent to `alerts/configs`. |
| `Plugin.ActionModule.CleanupAlerts` | action_plugins/serverdensity.py:454-459 | Sends only DELETEs, exactly `DeleteRequests` of the alerts on success. The cache file is gone after any deletion, and no file changes when nothing is deleted. |
| `Plugin.ActionModule.DeleteUnmarked` | action_plugins/serverdensity.py:455-459 | A marked alert causes no request and no change. An unmarked one without a string `_id` is a TypeError before any request. Otherwise exactly its DELETE is sent, and the cache file is removed when it succeeds. |
| `Plugin.ActionModule.EnsureNamedAlerts` | action_plugins/serverdensity.py:128-134 | Each named alert goes through `ensure_alert` with no DELETE, and without force only creations. A service alert must be a dict. |
| `Plugin.ActionModule.EnsureNamedAlert` | action_plugins/serverdensity.py:155-157 | Tagging a service alert that is not a dict raises before any request. Otherwise the alert, with `service` set to the service's name when there is one, is ensured exactly as `EnsureAlert` says. |
| `Plugin.ActionModule.EnsureAlertsOf` | action_plugins/serverdensity.py:128-134 | A falsy alert dict sends nothing. A truthy non-dict raises before any request. |
| `Plugin.ActionModule.EnsureHosts` | action_plugins/serverdensity.py:68-134 | The host loop's declarations are exactly `Gather` of the hosts' variables, while devices and device alerts are ensured with no DELETE. |
| `Plugin.ActionModule.EnsureOneHost` | action_plugins/serverdensity.py:68-134 | One host adds exactly `AddHost` of its variables to the declarations, with no DELETE, and without force only creations. |
| `Plugin.ActionModule.EnsureDevicegroupAlerts` | action_plugins/serverdensity.py:136-143 | No group sends nothing. Every group's alerts are ensured with no DELETE, and without force only creations. Every group name is a string when this succeeds. |
| `Plugin.ActionModule.EnsureServices` | action_plugins/serverdensity.py:145-157 | No service sends nothing. Services and their alerts are ensured with no DELETE, and without force only creations. Every service name is a string when this succeeds. |
| `Plugin.ActionModule.EnsureServicegroupAlerts` | action_plugins/serverdensity.py:159-164 | No alert sends nothing. Alerts are ensured with no DELETE, and without force only creations. Each service group alert is a dict when this succeeds. |
| `Plugin.ActionModule.Sync` | action_plugins/serverdensity.py:63-168 | Without force only reads and creations are sent, without cleanup no DELETE, and with cleanup the log ends with the cleanup's DELETEs. |
| `Plugin.ActionModule.Run` | action_plugins/serverdensity.py:31-172 | Check mode sends nothing. A missing `api_token` raises its message. `readonly` only reads and leaves the download in the temporary cache file. Without `force` nothing is updated, and without `cleanup` nothing is deleted. |
| `Plugin.ActionModule.Start` | action_plugins/serverdensity.py:36-172 | As `Run` once past check mode: `readonly` turns off force and cleanup and caches to the temporary file. |
| `Standalone.ServerDensity.constructor` | ansible-serverdensity.py:219-222 | A new client holds the token and no devices or services, and has sent nothing. |
| `Standalone.ServerDensity.Request` | ansible-serverdensity.py:224-244 | `_request` appends exactly `StandaloneRequest` and returns `StandaloneReply` of the API's answer. |
| `Standalone.ServerDensity.GetDeviceId` | ansible-serverdensity.py:246-250 | The first device with that hostname gives its `_id`, else `False`. |
| `Standalone.ServerDensity.Status` | ansible-serverdensity.py:252-254 | One GET for the devices, then one for the services, each kept as the listing returned. |
| `Standalone.ServerDensity.EnsureHost` | ansible-serverdensity.py:256-280 | Exactly one POST of the device data, to `inventory/devices` on a miss and to `inventory/devices/<id>` on a hit, with no force check. |
| `Standalone.ResolveToken` | ansible-serverdensity.py:63-75 | The token is the option when set, else the first host's `sd_api_token`, else `SD_API_TOKEN` from the environment. With no hosts it is an IndexError, and otherwise the error `Unable to load SD_API_TOKEN`. |
| `Standalone.TokenFromFirstHost` | ansible-serverdensity.py:67-70 | Only the first inventory host's variables are consulted. |
| `Standalone.ExitCode` | ansible-serverdensity.py:298-302 | The code is 2 exactly when a contacted host failed or has a non-zero `rc`. It is 3 exactly when none failed and some host is dark. Otherwise the script goes on. |
| `Standalone.ExitCodeOf` | ansible-serverdensity.py:298-302 | The loop with its early exit yields exactly `ExitCode`. |
| `Standalone.Failed` | ansible-serverdensity.py:299 | A contacted host's result fails when it has `failed` or an `rc` other than 0; `FailedByCode` characterises it. |
| `Standalone.FailedByCode` | ansible-serverdensity.py:299 | A result fails exactly when it has `failed` or an `rc` that is not a number equal to 0, so `False`, `0` and `0.0` all pass. |

## Left out

- HTTP transport through `requests` is not modelled: the API is the `server` function over the request log. Network exceptions are left out; the `except ae` around the call catches none of them.
- JSON encoding is the opaque `encode` parameter, which yields a non-empty string. Decoded reply content is taken to be a `Value`, so a body that is not JSON is not modelled.
- Ansible's runner and inventory appear only as explicit inputs:
  - `host_set` and `get_variables` become the `hosts` argument;
  - the `all` group's variables become `allVars`;
  - `_hosts_cache` and `_vars_per_host` become one set of host names, `inventoryHosts`, with the agent keys in `agentKeys`.
- Aliasing is not modelled. The source sets `service` on the inventory's alert dicts, completes `config` in place, and marks alert dicts that the `all` group's memo also holds. The model works on copies, so a later read of the same dict does not see those writes.
- A listing reply that is not a list of dicts is refused where it is fetched. The source keeps any value and fails later at `.get`.
- A cache file is taken to hold the five collections. A key missing from the file, which the source defaults to `{}`, is the empty list.
- A `cache` argument that is not a string is treated as no cache.
- `str` and `unicode` are one string type. The `UnicodeEncodeError` of `str()` on non-ASCII text is left out.
- `parse_kv` is not modelled: the `key=value` pairs arrive already parsed.
- `tempfile.mktemp` is the fresh `tempName` argument.
- The `vv` and `callbacks.display` logging is left out. Of the TypeErrors raised when a progress message concatenates a name that is not a string, only those of the device group and service loops (`action_plugins/serverdensity.py:138`, `147`) are modelled, where the names are the gathered keys.
- A dict's keys are strings (`Value.Dict` is `map<string, Value>`), so an inventory dict with a non-string key, such as `sd_alerts: {1: ...}`, cannot be expressed. The TypeErrors its key would raise in the progress messages at `action_plugins/serverdensity.py:132`, `141`, `154` and `161` are not modelled.
- The result dict of `ReturnData` is reduced to `Skipped` or `Completed`.
- The standalone script's option parsing, password prompts, `Runner` construction and polling are left out, as is its host loop that assembles facts (`ansible-serverdensity.py:316-345`). `Standalone.ServerDensity.EnsureHost` takes the keyword arguments as one record.
- `Standalone.ExitCode` assumes that `results['contacted']` exists and holds dicts.
- Plugin.ActionModule.SendDevice: a create or update reply that is not a dict is refused where it arrives, with AttributeError and no further change. The source appends it to the devices, rewrites an existing cache file with it (`cache_update(False)`), and raises AttributeError only at `device.get('agentKey')` for a host in the inventory maps; for any other host it returns normally. The model's local collections hold dicts only.
- Plugin.ActionModule.EnsureHost: inherits the SendDevice gap above: a non-dict create or update reply ends the host with AttributeError before the device list and the cache file change.
- Plugin.ActionModule.EnsureService: a create reply that is not a dict is refused with AttributeError. The source appends it to the services and returns normally.
- Api.PluginForm: `sys.maxint` is fixed at 2^63 - 1, a 64-bit CPython 2 build. On a 32-bit build the bound is 2^31 - 1, so more integers would be `long` and dropped.
- Api.StandaloneForm: the same fixed `sys.maxint` bound as `Api.PluginForm`.
- Plugin.ActionModule.Run: Python dict iteration order is not specified. The loops over declared services and alert dicts take names in an arbitrary order, so the contract states properties of the whole request log (GETs only, creations only, no DELETE, the cleanup's DELETEs last), not the exact sequence of requests.
- Plugin.ActionModule.EnsureDevicegroupAlerts: for the same reason, the contract states only the log properties and that every group name is a string. It does not state which alerts each group caused to be ensured.
- Plugin.ActionModule.EnsureServices: for the same reason, the contract states only the log properties and that every service name is a string. It does not state the per-service `ensure_service` outcome or which alerts were tagged, beyond what `EnsureService` and `EnsureNamedAlert` state for one call.
- Plugin.ActionModule.EnsureServicegroupAlerts: for the same reason, the contract states only the log properties and that every alert is a dict. It does not state the group each alert was ensured under, beyond what `EnsureNamedAlert` states for one call.
- Plugin.ActionModule.EnsureNamedAlerts: for the same reason, the contract states only the log properties, and for service alerts that every alert was a dict. It does not state which requests each alert caused.
