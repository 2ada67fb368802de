/** Specification functions for the reconciliation: natural-key lookups,
    the alert candidate rule, Python's remove-while-iterating, the
    recipients list of an alert and the requests of the alert cleanup. */
module Matching {
  import opened PyValues
  import opened Api

  // ---------------------------------------------------------------------
  // Natural-key lookups

  /** A record matches a criteria dict when `record.get(f) == v` for each
      entry `f: v` of the criteria. */
  predicate Matches(r: Record, crit: Record)
  {
    forall f :: f in crit ==> PyEq(Get(r, f), crit[f])
  }

  /** The `_id` of the first matching record, `False` when none matches. */
  function FindId(records: seq<Record>, crit: Record): Value
  {
    if records == [] then Bool(false)
    else if Matches(records[0], crit) then Get(records[0], "_id")
    else FindId(records[1..], crit)
  }

  /** A hit: the lookup returns the `_id` of the FIRST matching record. */
  lemma {:induction false} FindIdFirstMatch(records: seq<Record>, crit: Record, i: nat)
    requires i < |records| && Matches(records[i], crit)
    requires forall j :: 0 <= j < i ==> !Matches(records[j], crit)
    ensures FindId(records, crit) == Get(records[i], "_id")
  {
    if i > 0 {
      FindIdFirstMatch(records[1..], crit, i - 1);
    }
  }

  /** A miss: with no matching record the lookup returns `False`. */
  lemma {:induction false} FindIdMiss(records: seq<Record>, crit: Record)
    requires forall j :: 0 <= j < |records| ==> !Matches(records[j], crit)
    ensures FindId(records, crit) == Bool(false)
  {
    if records != [] {
      FindIdMiss(records[1..], crit);
    }
  }

  /** The lookup loops of `_get_*_id`: the `_id` of the first record that
      matches, `False` when none does. */
  method Lookup(records: seq<Record>, crit: Record) returns (id: Value)
    ensures id == FindId(records, crit)
  {
    var i := 0;
    while i < |records|
      invariant 0 <= i <= |records|
      invariant FindId(records, crit) == FindId(records[i..], crit)
    {
      assert records[i..][1..] == records[i + 1..];
      if Matches(records[i], crit) {
        return Get(records[i], "_id");
      }
      i := i + 1;
    }
    return Bool(false);
  }

  /** The lookup only ever returns `False` or an `_id` of a matching record. */
  lemma {:induction false} FindIdSource(records: seq<Record>, crit: Record)
    ensures FindId(records, crit) == Bool(false) ||
            exists i :: 0 <= i < |records| && Matches(records[i], crit) && FindId(records, crit) == Get(records[i], "_id")
  {
    if records != [] && !Matches(records[0], crit) {
      FindIdSource(records[1..], crit);
      if FindId(records[1..], crit) != Bool(false) {
        var i :| 0 <= i < |records[1..]| && Matches(records[1..][i], crit) && FindId(records[1..], crit) == Get(records[1..][i], "_id");
        assert records[i + 1] == records[1..][i];
      }
    }
  }

  function DeviceKey(hostname: Value): Record { map["hostname" := hostname] }
  function ServiceKey(name: Value): Record { map["name" := name] }
  function UserKey(login: Value): Record { map["login" := login] }
  function NotificationKey(kind: Value, name: Value): Record { map["type" := kind, "name" := name] }

  /** A notification matches only when both `type` and `name` match. */
  lemma NotificationKeyNeedsBoth(r: Record, kind: Value, name: Value)
    ensures Matches(r, NotificationKey(kind, name)) <==>
            PyEq(Get(r, "type"), kind) && PyEq(Get(r, "name"), name)
  {
    var crit := NotificationKey(kind, name);
    if PyEq(Get(r, "type"), kind) && PyEq(Get(r, "name"), name) {
      forall f | f in crit ensures PyEq(Get(r, f), crit[f]) {
        if f == "type" { } else { assert f == "name"; }
      }
    }
    if Matches(r, crit) {
      assert "type" in crit && "name" in crit;
    }
  }

  // ---------------------------------------------------------------------
  // Alert candidates

  /** Set on an alert dict once an `ensure_alert` has matched it. */
  predicate Marked(a: Record)
  {
    Truthy(Get(a, "ansible_updated"))
  }

  function Mark(a: Record): (m: Record)
    ensures Marked(m)
  {
    a["ansible_updated" := Bool(true)]
  }

  function AlertKey(subjectType: Value, subjectId: Value, section: Value, field: Value): Record
  {
    map["subjectType" := subjectType, "subjectId" := subjectId, "section" := section, "field" := field]
  }

  predicate IsCandidate(a: Record, crit: Record)
  {
    !Marked(a) && Matches(a, crit)
  }

  /** The candidate alerts of `_get_alert_id`, by position in `alerts`:
      the unmarked ones that match the natural key, in order. */
  function Candidates(alerts: seq<Record>, crit: Record): (c: seq<nat>)
    ensures forall k :: 0 <= k < |c| ==> c[k] < |alerts| && IsCandidate(alerts[c[k]], crit)
    ensures forall k, l :: 0 <= k < l < |c| ==> c[k] < c[l]
    ensures forall i :: 0 <= i < |alerts| && IsCandidate(alerts[i], crit) ==> i in c
  {
    if alerts == [] then []
    else
      var init := alerts[..|alerts| - 1];
      var before := Candidates(init, crit);
      var last := |alerts| - 1;
      assert forall k :: 0 <= k < |before| ==> before[k] < last && alerts[before[k]] == init[before[k]];
      assert forall i :: 0 <= i < last ==> alerts[i] == init[i];
      before + (if IsCandidate(alerts[last], crit) then [last] else [])
  }

  predicate ValidPositions(alerts: seq<Record>, cands: seq<nat>)
  {
    forall k :: 0 <= k < |cands| ==> cands[k] < |alerts|
  }

  /** The score `_get_alert_id` adds for one candidate. */
  function Score(a: Record, comparison: Value, value: Value): nat
  {
    (if PyEq(Get(a, "comparison"), comparison) then 1 else 0) + (if PyEq(Get(a, "value"), value) then 2 else 0)
  }

  /** A candidate that matches on `comparison` or on `value`. */
  predicate Hit(a: Record, comparison: Value, value: Value)
  {
    PyEq(Get(a, "comparison"), comparison) || PyEq(Get(a, "value"), value)
  }

  /** The choice among the first `n` candidates that the scoring loop makes:
      because `check_level` is never reset it grows exactly at each hit, so
      the loop keeps the LAST candidate that hits, or the first when none
      after it does. */
  function AsWrittenChoice(alerts: seq<Record>, cands: seq<nat>, comparison: Value, value: Value, n: nat): (p: nat)
    requires ValidPositions(alerts, cands) && 1 <= n <= |cands|
    ensures p < n
    ensures p == 0 || Hit(alerts[cands[p]], comparison, value)
    ensures forall q :: p < q < n ==> !Hit(alerts[cands[q]], comparison, value)
  {
    if n == 1 then 0
    else if Hit(alerts[cands[n - 1]], comparison, value) then n - 1
    else AsWrittenChoice(alerts, cands, comparison, value, n - 1)
  }

  /** One more candidate for the scoring loop. */
  lemma ChoiceStep(alerts: seq<Record>, cands: seq<nat>, comparison: Value, value: Value, k: nat)
    requires ValidPositions(alerts, cands) && k < |cands|
    ensures var a := alerts[cands[k]];
            && (Hit(a, comparison, value) <==> PyEq(Get(a, "comparison"), comparison) || PyEq(Get(a, "value"), value))
            && (k > 0 ==> AsWrittenChoice(alerts, cands, comparison, value, k + 1) ==
                            if Hit(a, comparison, value) then k else AsWrittenChoice(alerts, cands, comparison, value, k))
            && (k == 0 ==> AsWrittenChoice(alerts, cands, comparison, value, 1) == 0)
  {
  }

  /** The best-score rule, to compare the scoring loop with: the highest
      score, the earliest candidate on a tie. */
  function BestChoice(alerts: seq<Record>, cands: seq<nat>, comparison: Value, value: Value, n: nat): (p: nat)
    requires ValidPositions(alerts, cands) && 1 <= n <= |cands|
    ensures p < n
    ensures forall q :: 0 <= q < n ==> Score(alerts[cands[q]], comparison, value) <= Score(alerts[cands[p]], comparison, value)
    ensures forall q :: 0 <= q < p ==> Score(alerts[cands[q]], comparison, value) < Score(alerts[cands[p]], comparison, value)
  {
    if n == 1 then 0
    else
      var p := BestChoice(alerts, cands, comparison, value, n - 1);
      if Score(alerts[cands[n - 1]], comparison, value) > Score(alerts[cands[p]], comparison, value) then n - 1 else p
  }

  /** The two rules agree when at most one candidate hits. */
  lemma ChoicesAgreeOnSingleHit(alerts: seq<Record>, cands: seq<nat>, comparison: Value, value: Value)
    requires ValidPositions(alerts, cands) && 1 <= |cands|
    requires forall q, r ::
               (0 <= q < |cands| && 0 <= r < |cands| &&
                Hit(alerts[cands[q]], comparison, value) && Hit(alerts[cands[r]], comparison, value)) ==> q == r
    ensures AsWrittenChoice(alerts, cands, comparison, value, |cands|) == BestChoice(alerts, cands, comparison, value, |cands|)
  {
    var n := |cands|;
    var p := AsWrittenChoice(alerts, cands, comparison, value, n);
    var b := BestChoice(alerts, cands, comparison, value, n);
    var ap, ab := alerts[cands[p]], alerts[cands[b]];
    HitScores(ap, comparison, value);
    HitScores(ab, comparison, value);
    if Hit(ap, comparison, value) {
      assert Score(ab, comparison, value) >= Score(ap, comparison, value);
    } else {
      assert p == 0;
      assert Score(ap, comparison, value) == 0;
    }
  }

  /** A candidate scores above 0 exactly when it hits. */
  lemma HitScores(a: Record, comparison: Value, value: Value)
    ensures Hit(a, comparison, value) <==> Score(a, comparison, value) > 0
  {
  }

  /** Where the two rules part: a candidate matching both `comparison` and
      `value` followed by one matching only `comparison`. The scoring loop
      keeps the second; the highest score is the first's. */
  lemma AsWrittenPrefersLaterHit()
    ensures
      var a := map["comparison" := Str("gt"), "value" := Int(90), "_id" := Str("a")];
      var b := map["comparison" := Str("gt"), "value" := Int(70), "_id" := Str("b")];
      var alerts := [a, b];
      AsWrittenChoice(alerts, [0, 1], Str("gt"), Int(90), 2) == 1 &&
      BestChoice(alerts, [0, 1], Str("gt"), Int(90), 2) == 0 &&
      Score(a, Str("gt"), Int(90)) == 3 && Score(b, Str("gt"), Int(90)) == 1
  {
    var a := map["comparison" := Str("gt"), "value" := Int(90), "_id" := Str("a")];
    var b := map["comparison" := Str("gt"), "value" := Int(70), "_id" := Str("b")];
    assert Get(a, "comparison") == Str("gt") && Get(a, "value") == Int(90);
    assert Get(b, "comparison") == Str("gt") && Get(b, "value") == Int(70);
    assert NumberOf(Int(70)) != NumberOf(Int(90));
  }

  // ---------------------------------------------------------------------
  // Remove-while-iterating in `ensure_host`

  /** `list.remove(x)`: drops the first element equal to `x`. */
  function RemoveFirst(s: seq<Record>, x: Record): (r: seq<Record>)
    ensures |r| <= |s|
  {
    if s == [] then []
    else if PyEq(Dict(s[0]), Dict(x)) then s[1..]
    else [s[0]] + RemoveFirst(s[1..], x)
  }

  /** `for d in s: if d.get('hostname') == h: s.remove(d)` from position
      `i` on: the loop index advances past the element that slides into the
      removed one's place. */
  function RemoveWhileIterating(s: seq<Record>, hostname: Value, i: nat): seq<Record>
    decreases |s| - i
  {
    if i >= |s| then s
    else
      var next := if PyEq(Get(s[i], "hostname"), hostname) then RemoveFirst(s, s[i]) else s;
      RemoveWhileIterating(next, hostname, i + 1)
  }

  lemma {:induction false} RemoveFirstAt(s: seq<Record>, x: Record, m: nat)
    requires m < |s| && PyEq(Dict(s[m]), Dict(x))
    requires forall j :: 0 <= j < m ==> !PyEq(Dict(s[j]), Dict(x))
    ensures RemoveFirst(s, x) == s[..m] + s[m + 1..]
  {
    if m > 0 {
      RemoveFirstAt(s[1..], x, m - 1);
      assert s[..m] == [s[0]] + s[1..][..m - 1];
      assert s[m + 1..] == s[1..][m..];
    }
  }

  lemma {:induction false} RemoveSkipsNonMatching(s: seq<Record>, hostname: Value, i: nat, m: nat)
    requires i <= m <= |s|
    requires forall j :: i <= j < m ==> !PyEq(Get(s[j], "hostname"), hostname)
    ensures RemoveWhileIterating(s, hostname, i) == RemoveWhileIterating(s, hostname, m)
    decreases m - i
  {
    if i < m {
      RemoveSkipsNonMatching(s, hostname, i + 1, m);
    }
  }

  /** With a unique hostname the loop removes exactly the one old entry. */
  lemma RemoveUniqueHostname(s: seq<Record>, hostname: Value, m: nat)
    requires m < |s| && PyEq(Get(s[m], "hostname"), hostname)
    requires forall j :: 0 <= j < |s| && j != m ==> !PyEq(Get(s[j], "hostname"), hostname)
    ensures RemoveWhileIterating(s, hostname, 0) == s[..m] + s[m + 1..]
  {
    RemoveSkipsNonMatching(s, hostname, 0, m);
    PyEqReflexive(Dict(s[m]));
    forall j | 0 <= j < m ensures !PyEq(Dict(s[j]), Dict(s[m])) {
      if PyEq(Dict(s[j]), Dict(s[m])) {
        PyEqDictGet(s[j], s[m], "hostname");
        PyEqTransitive(Get(s[j], "hostname"), Get(s[m], "hostname"), hostname);
      }
    }
    RemoveFirstAt(s, s[m], m);
    var t := s[..m] + s[m + 1..];
    if m + 1 <= |t| {
      assert forall j :: m + 1 <= j < |t| ==> t[j] == s[j + 1];
      RemoveSkipsNonMatching(t, hostname, m + 1, |t|);
    }
  }

  /** Two adjacent entries with the same hostname: the second survives. */
  lemma AdjacentDuplicateSurvives()
    ensures
      var d1 := map["hostname" := Str("web"), "_id" := Str("a")];
      var d2 := map["hostname" := Str("web"), "_id" := Str("b")];
      RemoveWhileIterating([d1, d2], Str("web"), 0) == [d2]
  {
    var d1 := map["hostname" := Str("web"), "_id" := Str("a")];
    var d2 := map["hostname" := Str("web"), "_id" := Str("b")];
    PyEqReflexive(Dict(d1));
    PyEqReflexive(Str("web"));
    assert Get(d1, "hostname") == Str("web");
    assert RemoveFirst([d1, d2], d1) == [d2];
  }

  // ---------------------------------------------------------------------
  // Recipients of an alert

  /** The recipient dict built for a notify entry whose lookup succeeded. */
  function RecipientDict(kind: Value, id: Value, actions: Value): Record
  {
    if Truthy(actions) then map["type" := kind, "id" := id, "actions" := actions]
    else map["type" := kind, "id" := id]
  }

  /** One `notify` entry: a user is looked up by login and carries its
      `actions`; any other type is looked up among the notifications by
      type and name. `None` when the lookup misses. */
  function RecipientEntry(item: Value, users: seq<Record>, notifications: seq<Record>): Result<Option<Value>>
  {
    if !item.Dict? then Err(Raised(TypeError))
    else if "type" !in item.fields || "name" !in item.fields then Err(Raised(KeyError))
    else
      var kind, name := item.fields["type"], item.fields["name"];
      if PyEq(kind, Str("user")) then
        if "actions" !in item.fields then Err(Raised(KeyError))
        else
          var id := FindId(users, UserKey(name));
          if Truthy(id) then Ok(Some(Dict(RecipientDict(kind, id, item.fields["actions"])))) else Ok(None)
      else
        var id := FindId(notifications, NotificationKey(kind, name));
        if Truthy(id) then Ok(Some(Dict(RecipientDict(kind, id, Null)))) else Ok(None)
  }

  /** A well-formed recipient entry: type and a found id, `actions` only
      for a user and only when truthy. */
  predicate RecipientShape(r: Value)
  {
    && r.Dict?
    && "type" in r.fields && "id" in r.fields && Truthy(r.fields["id"])
    && r.fields.Keys <= {"type", "id", "actions"}
    && ("actions" in r.fields ==> PyEq(r.fields["type"], Str("user")) && Truthy(r.fields["actions"]))
  }

  /** The recipients built from `notify` items, in order. */
  function RecipientsOf(items: seq<Value>, users: seq<Record>, notifications: seq<Record>): (r: Result<seq<Value>>)
    ensures r.Ok? ==> |r.value| <= |items|
    ensures r.Ok? ==> forall k :: 0 <= k < |r.value| ==> RecipientShape(r.value[k])
  {
    if items == [] then Ok([])
    else
      var before := RecipientsOf(items[..|items| - 1], users, notifications);
      if before.Err? then before
      else match RecipientEntry(items[|items| - 1], users, notifications)
        case Err(e) => Err(e)
        case Ok(None) => before
        case Ok(Some(entry)) => Ok(before.value + [entry])
  }

  /** A failing prefix fails the whole list. */
  lemma {:induction false} RecipientsErrorPersists(items: seq<Value>, n: nat, users: seq<Record>, notifications: seq<Record>)
    requires n <= |items| && RecipientsOf(items[..n], users, notifications).Err?
    ensures RecipientsOf(items, users, notifications) == RecipientsOf(items[..n], users, notifications)
    decreases |items| - n
  {
    if n < |items| {
      assert items[..n + 1][..n] == items[..n];
      RecipientsErrorPersists(items, n + 1, users, notifications);
    } else {
      assert items[..n] == items;
    }
  }

  /** The recipients of a whole `notify` value (nothing when falsy). */
  function RecipientList(notify: Value, users: seq<Record>, notifications: seq<Record>): Result<seq<Value>>
  {
    if !Truthy(notify) then Ok([])
    else if !notify.List? then Err(Raised(TypeError))
    else RecipientsOf(notify.items, users, notifications)
  }

  /** Order: the recipients of `a + b` are those of `a` followed by those of `b`. */
  lemma {:induction false} RecipientsAppend(a: seq<Value>, b: seq<Value>, users: seq<Record>, notifications: seq<Record>)
    requires RecipientsOf(a, users, notifications).Ok? && RecipientsOf(b, users, notifications).Ok?
    ensures RecipientsOf(a + b, users, notifications) ==
            Ok(RecipientsOf(a, users, notifications).value + RecipientsOf(b, users, notifications).value)
  {
    var ra := RecipientsOf(a, users, notifications).value;
    if b == [] {
      assert a + b == a;
      assert ra + [] == ra;
    } else {
      var init := b[..|b| - 1];
      assert RecipientsOf(init, users, notifications).Ok?;
      var ri := RecipientsOf(init, users, notifications).value;
      assert (a + b)[..|a + b| - 1] == a + init;
      assert (a + b)[|a + b| - 1] == b[|b| - 1];
      RecipientsAppend(a, init, users, notifications);
      match RecipientEntry(b[|b| - 1], users, notifications)
      case Ok(None) =>
      case Ok(Some(e)) => assert ra + (ri + [e]) == (ra + ri) + [e];
    }
  }

  /** One item contributes exactly its entry when the lookup succeeded and
      nothing when it missed. */
  lemma RecipientsOfOne(item: Value, users: seq<Record>, notifications: seq<Record>)
    requires RecipientEntry(item, users, notifications).Ok?
    ensures RecipientsOf([item], users, notifications) ==
            match RecipientEntry(item, users, notifications).value
            case None => Ok([])
            case Some(e) => Ok([e])
  {
    assert [item][..0] == [];
    assert RecipientsOf([], users, notifications) == Ok([]);
    match RecipientEntry(item, users, notifications).value
    case None =>
    case Some(e) => assert [] + [e] == [e];
  }

  // ---------------------------------------------------------------------
  // Cleanup

  /** The DELETE `cleanup_alerts` issues for one alert id. */
  function DeleteOf(token: Value, id: string): Request
  {
    Request(DELETE, BaseUrl + "alerts/configs/" + id, token, map[])
  }

  /** The DELETEs of `cleanup_alerts` over `alerts`, in order; a TypeError
      when an unmarked alert has no string `_id` to put in the path. */
  function DeleteRequests(token: Value, alerts: seq<Record>): Result<seq<Request>>
  {
    if alerts == [] then Ok([])
    else
      var before := DeleteRequests(token, alerts[..|alerts| - 1]);
      var a := alerts[|alerts| - 1];
      if before.Err? || Marked(a) then before
      else if !Get(a, "_id").Str? then Err(Raised(TypeError))
      else Ok(before.value + [DeleteOf(token, Get(a, "_id").s)])
  }

  /** The positions of the alerts no `ensure_alert` has matched, in order. */
  function Unmarked(alerts: seq<Record>): (u: seq<nat>)
    ensures forall k :: 0 <= k < |u| ==> u[k] < |alerts| && !Marked(alerts[u[k]])
    ensures forall k, l :: 0 <= k < l < |u| ==> u[k] < u[l]
    ensures forall i :: 0 <= i < |alerts| && !Marked(alerts[i]) ==> i in u
  {
    if alerts == [] then []
    else
      var init := alerts[..|alerts| - 1];
      var before := Unmarked(init);
      var last := |alerts| - 1;
      assert forall k :: 0 <= k < |before| ==> before[k] < last && alerts[before[k]] == init[before[k]];
      assert forall i :: 0 <= i < last ==> alerts[i] == init[i];
      before + (if !Marked(alerts[last]) then [last] else [])
  }

  /** Cleanup deletes exactly the unmarked alerts: the k-th DELETE goes to
      the `_id` of the k-th unmarked alert, and marked alerts get none. */
  lemma {:induction false} DeletesExactlyUnmarked(token: Value, alerts: seq<Record>)
    requires DeleteRequests(token, alerts).Ok?
    ensures var rs, u := DeleteRequests(token, alerts).value, Unmarked(alerts);
            |rs| == |u| &&
            forall k :: 0 <= k < |u| ==> Get(alerts[u[k]], "_id").Str? && rs[k] == DeleteOf(token, Get(alerts[u[k]], "_id").s)
  {
    if alerts != [] {
      var init := alerts[..|alerts| - 1];
      var a := alerts[|alerts| - 1];
      var before := DeleteRequests(token, init);
      assert before.Ok?;
      DeletesExactlyUnmarked(token, init);
      var ri, ui := before.value, Unmarked(init);
      assert forall k :: 0 <= k < |ui| ==> ui[k] < |init| && alerts[ui[k]] == init[ui[k]];
      var rs, u := DeleteRequests(token, alerts).value, Unmarked(alerts);
      var last := |alerts| - 1;
      assert alerts[..last] == init;
      if Marked(a) {
        assert rs == ri;
        assert u == ui;
      } else {
        var id := Get(a, "_id");
        assert id.Str?;
        assert rs == ri + [DeleteOf(token, id.s)];
        assert u == ui + [last];
        DeletesOneMore(token, alerts, ri, ui, id.s);
      }
    }
  }

  /** The inductive step of `DeletesExactlyUnmarked` for an unmarked last
      alert with a string `_id`. */
  lemma DeletesOneMore(token: Value, alerts: seq<Record>, ri: seq<Request>, ui: seq<nat>, id: string)
    requires alerts != [] && |ri| == |ui|
    requires forall k :: 0 <= k < |ui| ==>
               ui[k] < |alerts| - 1 && Get(alerts[ui[k]], "_id").Str? && ri[k] == DeleteOf(token, Get(alerts[ui[k]], "_id").s)
    requires Get(alerts[|alerts| - 1], "_id") == Str(id)
    ensures var rs, u := ri + [DeleteOf(token, id)], ui + [|alerts| - 1];
            forall k :: 0 <= k < |u| ==> Get(alerts[u[k]], "_id").Str? && rs[k] == DeleteOf(token, Get(alerts[u[k]], "_id").s)
  {
    var rs, u := ri + [DeleteOf(token, id)], ui + [|alerts| - 1];
    forall k | 0 <= k < |u|
      ensures Get(alerts[u[k]], "_id").Str? && rs[k] == DeleteOf(token, Get(alerts[u[k]], "_id").s)
    {
      if k < |ui| {
        assert u[k] == ui[k] && rs[k] == ri[k];
      } else {
        assert u[k] == |alerts| - 1 && rs[k] == DeleteOf(token, id);
      }
    }
  }

  /** One more alert in the cleanup: nothing for a marked one, a TypeError
      for an unmarked one without a string `_id`, its DELETE otherwise. */
  lemma DeleteRequestsStep(token: Value, alerts: seq<Record>, i: nat)
    requires i < |alerts| && DeleteRequests(token, alerts[..i]).Ok?
    ensures var before, a := DeleteRequests(token, alerts[..i]), alerts[i];
            DeleteRequests(token, alerts[..i + 1]) ==
              if Marked(a) then before
              else if !Get(a, "_id").Str? then Err(Raised(TypeError))
              else Ok(before.value + [DeleteOf(token, Get(a, "_id").s)])
  {
    assert alerts[..i + 1][..i] == alerts[..i];
  }

}
