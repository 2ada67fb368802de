/** The ServerDensity HTTP API as both clients use it: what a request
    carries, how a payload dict becomes form data, and how a non-200 reply
    becomes an error. The transport itself is an oracle held by the clients. */
module Api {
  import opened PyValues

  /** What `json.JSONEncoder().encode` returns: some non-empty text. The
      encoder is a parameter; its grammar is not modelled. */
  type Json = s: string | |s| > 0 witness "null"

  datatype Method = GET | POST | DELETE

  /** One HTTP call: the verb, the full URL, the `token` query parameter
      and the form body (empty for GET and DELETE). */
  datatype Request = Request(verb: Method, url: string, token: Value, form: map<string, string>)

  /** A reply: the status code and the decoded JSON body. */
  datatype Response = Response(status: int, content: Value)

  const BaseUrl: string := "https://api.serverdensity.io/"

  // ---------------------------------------------------------------------
  // Form data of the action plugin

  /** What the action plugin sends for one payload entry, by the entry's
      type: collections as JSON when non-empty or under `recipients`, ints
      and bools as their text, strings when non-empty, nothing else. A
      `long` fails `type(item) is int` and is dropped with the rest. */
  function PluginField(encode: Value -> Json, key: string, v: Value): Option<string>
  {
    match v
    case List(items) => if |items| > 0 || key == "recipients" then Some(encode(v)) else None
    case Dict(fields) => if |fields| > 0 || key == "recipients" then Some(encode(v)) else None
    case Int(i) => if IsPlainInt(i) then Some(IntText(i)) else None
    case Bool(b) => Some(BoolText(b))
    case Str(s) => if |s| > 0 then Some(s) else None
    case Null => None
    case Float(_) => None
  }

  /** The action plugin's form body for a payload. */
  function PluginForm(encode: Value -> Json, data: Record): (form: map<string, string>)
    ensures form.Keys <= data.Keys
    ensures forall k :: k in form ==> |form[k]| > 0
    ensures forall k :: k in data && (data[k].Null? || data[k].Float? || data[k] == Str("")) ==> k !in form
    ensures forall k :: k in data && k != "recipients" && !Truthy(data[k]) && !data[k].Int? && !data[k].Bool? ==> k !in form
    ensures forall k :: k in data && ((data[k].Int? && IsPlainInt(data[k].i)) || data[k].Bool?) ==> k in form
    ensures forall k :: k in data && data[k].Int? && IsPlainInt(data[k].i) ==> form[k] == IntText(data[k].i)
    ensures forall k :: k in data && data[k].Int? && !IsPlainInt(data[k].i) ==> k !in form
    ensures "recipients" in data && (data["recipients"].List? || data["recipients"].Dict?) ==>
              "recipients" in form && form["recipients"] == encode(data["recipients"])
  {
    map k | k in data && PluginField(encode, k, data[k]).Some? :: PluginField(encode, k, data[k]).value
  }

  /** The loop of `_request` that fills `postData`, step by step as the
      plugin does it: encode collections, stringify ints, unicode and bools,
      keep non-empty strings. */
  method MarshalPluginForm(encode: Value -> Json, data: Record) returns (post: map<string, string>)
    ensures post == PluginForm(encode, data)
  {
    post := map[];
    var keys := data.Keys;
    while keys != {}
      invariant keys <= data.Keys
      invariant forall k :: k in post <==> k in data && k !in keys && PluginField(encode, k, data[k]).Some?
      invariant forall k :: k in post ==> post[k] == PluginField(encode, k, data[k]).value
      decreases keys
    {
      var key :| key in keys;
      var item := data[key];
      if item.List? || item.Dict? {
        if (item.List? && |item.items| > 0) || (item.Dict? && |item.fields| > 0) || key == "recipients" {
          item := Str(encode(item));
        }
      }
      if item.Int? && IsPlainInt(item.i) {
        item := Str(IntText(item.i));
      } else if item.Bool? {
        item := Str(BoolText(item.b));
      }
      if Truthy(item) && item.Str? && |item.s| > 0 {
        post := post[key := item.s];
      }
      keys := keys - {key};
    }
    assert post.Keys == PluginForm(encode, data).Keys;
  }

  // ---------------------------------------------------------------------
  // Form data of the standalone client

  /** What the standalone client sends for one payload entry: non-empty
      collections as JSON, ints as their text, non-empty strings; bools,
      longs, None, floats and empty collections are dropped. */
  function StandaloneField(encode: Value -> Json, v: Value): Option<string>
  {
    match v
    case List(items) => if |items| > 0 then Some(encode(v)) else None
    case Dict(fields) => if |fields| > 0 then Some(encode(v)) else None
    case Int(i) => if IsPlainInt(i) then Some(IntText(i)) else None
    case Str(s) => if |s| > 0 then Some(s) else None
    case Bool(_) => None
    case Null => None
    case Float(_) => None
  }

  function StandaloneForm(encode: Value -> Json, data: Record): (form: map<string, string>)
    ensures form.Keys <= data.Keys
    ensures forall k :: k in form ==> |form[k]| > 0
    ensures forall k :: k in data && !Truthy(data[k]) && !data[k].Int? ==> k !in form
    ensures forall k :: k in data && data[k].Bool? ==> k !in form
    ensures forall k :: k in data && data[k].Int? && IsPlainInt(data[k].i) ==> k in form && form[k] == IntText(data[k].i)
    ensures forall k :: k in data && data[k].Int? && !IsPlainInt(data[k].i) ==> k !in form
  {
    map k | k in data && StandaloneField(encode, data[k]).Some? :: StandaloneField(encode, data[k]).value
  }

  /** The `postData` loop of the standalone client's `_request`. */
  method MarshalStandaloneForm(encode: Value -> Json, data: Record) returns (post: map<string, string>)
    ensures post == StandaloneForm(encode, data)
  {
    post := map[];
    var keys := data.Keys;
    while keys != {}
      invariant keys <= data.Keys
      invariant forall k :: k in post <==> k in data && k !in keys && StandaloneField(encode, data[k]).Some?
      invariant forall k :: k in post ==> post[k] == StandaloneField(encode, data[k]).value
      decreases keys
    {
      var key :| key in keys;
      var item := data[key];
      if item.List? || item.Dict? {
        if (item.List? && |item.items| > 0) || (item.Dict? && |item.fields| > 0) {
          item := Str(encode(item));
        }
      }
      if item.Int? && IsPlainInt(item.i) {
        item := Str(IntText(item.i));
      }
      if Truthy(item) && item.Str? && |item.s| > 0 {
        post := post[key := item.s];
      }
      keys := keys - {key};
    }
    assert post.Keys == StandaloneForm(encode, data).Keys;
  }

  /** The two clients' form bodies agree except on bools (only the plugin
      sends them) and on an empty `recipients` collection (only the plugin
      sends it, as JSON). */
  lemma FormsDiffer(encode: Value -> Json, data: Record)
    ensures forall k :: k in StandaloneForm(encode, data) ==>
              k in PluginForm(encode, data) && PluginForm(encode, data)[k] == StandaloneForm(encode, data)[k]
    ensures forall k :: k in PluginForm(encode, data) && k !in StandaloneForm(encode, data) ==>
              data[k].Bool? ||
              (k == "recipients" && (data[k] == List([]) || data[k] == Dict(map[])))
  {
    var p, s := PluginForm(encode, data), StandaloneForm(encode, data);
    forall k | k in p && k !in s
      ensures data[k].Bool? || (k == "recipients" && (data[k] == List([]) || data[k] == Dict(map[])))
    {
      match data[k]
      case List(items) => assert |items| == 0;
      case Dict(fields) => assert |fields| == 0;
      case _ =>
    }
  }

  // ---------------------------------------------------------------------
  // Requests and replies

  /** The call the plugin's `_request(path, data, method)` makes: any
      non-empty payload turns it into a POST carrying the form. */
  function PluginRequest(encode: Value -> Json, token: Value, path: string, data: Record, verb: Method): (r: Request)
    ensures r.url == BaseUrl + path && r.token == token
    ensures |data| > 0 ==> r.verb == POST && r.form == PluginForm(encode, data)
    ensures |data| == 0 ==> r.verb == verb && r.form == map[]
  {
    if |data| > 0 then Request(POST, BaseUrl + path, token, PluginForm(encode, data))
    else Request(verb, BaseUrl + path, token, map[])
  }

  /** The call the standalone client's `_request(path, data)` makes: POST
      with a form when there is a payload, GET otherwise. */
  function StandaloneRequest(encode: Value -> Json, token: Value, path: string, data: Record): (r: Request)
    ensures r.url == BaseUrl + path && r.token == token
    ensures r.verb == (if |data| > 0 then POST else GET)
    ensures |data| > 0 ==> r.form == StandaloneForm(encode, data)
    ensures |data| == 0 ==> r.form == map[]
  {
    if |data| > 0 then Request(POST, BaseUrl + path, token, StandaloneForm(encode, data))
    else Request(GET, BaseUrl + path, token, map[])
  }

  /** Appending one error's description to the message:
      `msg += ' // ' + error['description']`. A string message grows by the
      text; a list message is extended by the text's characters, as `+=`
      on a list does; the exceptions are those Python raises when an entry
      or the message has the wrong shape. */
  function AppendDescription(msg: Value, error: Value): Result<Value>
  {
    if !error.Dict? then Err(Raised(TypeError))
    else if "description" !in error.fields then Err(Raised(KeyError))
    else if !error.fields["description"].Str? then Err(Raised(TypeError))
    else if msg.Str? then Ok(Str(msg.s + " // " + error.fields["description"].s))
    else if msg.List? then Ok(List(msg.items + Chars(" // " + error.fields["description"].s)))
    else Err(Raised(TypeError))
  }

  /** The message after the loop has gone over `errors`, in order. */
  function AppendDescriptions(msg: Value, errors: seq<Value>): Result<Value>
  {
    if errors == [] then Ok(msg)
    else
      var before := AppendDescriptions(msg, errors[..|errors| - 1]);
      if before.Err? then before else AppendDescription(before.value, errors[|errors| - 1])
  }

  /** The error the plugin raises for a non-200 reply with this body. */
  function PluginFailure(content: Value): Error
  {
    if !content.Dict? then Raised(TypeError)
    else if "message" !in content.fields || "errors" !in content.fields then Raised(KeyError)
    else
      var message, errors := content.fields["message"], content.fields["errors"];
      if !Truthy(errors) then AnsibleError(message)
      else if !errors.List? then Raised(TypeError)
      else match AppendDescriptions(message, errors.items)
        case Ok(m) => AnsibleError(m)
        case Err(e) => e
  }

  /** The text the message ends with: `' // ' + description` per entry. */
  function Suffixes(descriptions: seq<string>): string
  {
    if descriptions == [] then "" else " // " + descriptions[0] + Suffixes(descriptions[1..])
  }

  /** A body whose `errors` entries are objects with string descriptions. */
  predicate WellFormedErrors(errors: seq<Value>)
  {
    forall k :: 0 <= k < |errors| ==>
      errors[k].Dict? && "description" in errors[k].fields && errors[k].fields["description"].Str?
  }

  function Descriptions(errors: seq<Value>): (ds: seq<string>)
    requires WellFormedErrors(errors)
    ensures |ds| == |errors|
    ensures forall k :: 0 <= k < |errors| ==> ds[k] == errors[k].fields["description"].s
  {
    if errors == [] then [] else Descriptions(errors[..|errors| - 1]) + [errors[|errors| - 1].fields["description"].s]
  }

  lemma {:induction false} SuffixesAppend(a: seq<string>, d: string)
    ensures Suffixes(a + [d]) == Suffixes(a) + " // " + d
  {
    if a != [] {
      assert (a + [d])[1..] == a[1..] + [d];
      SuffixesAppend(a[1..], d);
    }
  }

  lemma {:induction false} AppendDescriptionsText(m: string, errors: seq<Value>)
    requires WellFormedErrors(errors)
    ensures AppendDescriptions(Str(m), errors) == Ok(Str(m + Suffixes(Descriptions(errors))))
  {
    if errors != [] {
      var init := errors[..|errors| - 1];
      assert WellFormedErrors(init);
      AppendDescriptionsText(m, init);
      var ds := Descriptions(init);
      var d := errors[|errors| - 1].fields["description"].s;
      SuffixesAppend(ds, d);
      assert Descriptions(errors) == ds + [d];
      assert AppendDescriptions(Str(m), errors) == AppendDescription(Str(m + Suffixes(ds)), errors[|errors| - 1]);
      assert m + Suffixes(ds) + " // " + d == m + (Suffixes(ds) + " // " + d);
    } else {
      assert |Descriptions(errors)| == 0;
      assert Suffixes([]) == "";
      assert m + "" == m;
    }
  }

  /** On a well-formed error body the raised text is `message` followed by
      `' // ' + description` for each entry of `errors`, in order. */
  lemma PluginFailureText(message: string, errors: seq<Value>)
    requires WellFormedErrors(errors)
    ensures PluginFailure(Dict(map["message" := Str(message), "errors" := List(errors)]))
            == AnsibleError(Str(message + Suffixes(Descriptions(errors))))
  {
    if errors != [] {
      AppendDescriptionsText(message, errors);
    } else {
      assert |Descriptions(errors)| == 0;
      assert Suffixes([]) == "";
      assert message + "" == message;
    }
  }

  /** With a list `message` the loop extends the list by the characters
      of every suffix, and that list is what is raised. */
  lemma {:induction false} AppendDescriptionsToList(items: seq<Value>, errors: seq<Value>)
    requires WellFormedErrors(errors)
    ensures AppendDescriptions(List(items), errors) == Ok(List(items + Chars(Suffixes(Descriptions(errors)))))
  {
    if errors != [] {
      var init := errors[..|errors| - 1];
      assert WellFormedErrors(init);
      AppendDescriptionsToList(items, init);
      var ds := Descriptions(init);
      var d := errors[|errors| - 1].fields["description"].s;
      SuffixesAppend(ds, d);
      assert Descriptions(errors) == ds + [d];
      ExtendByText(items, Suffixes(ds), d);
      assert AppendDescriptions(List(items), errors) ==
             AppendDescription(List(items + Chars(Suffixes(ds))), errors[|errors| - 1]);
    } else {
      assert |Descriptions(errors)| == 0;
      assert Suffixes([]) == "";
      assert items + Chars("") == items;
    }
  }

  /** Extending twice by characters is extending once by the joined text. */
  lemma ExtendByText(items: seq<Value>, s: string, d: string)
    ensures items + Chars(s) + Chars(" // " + d) == items + Chars(s + " // " + d)
  {
    CharsAppend(s, " // " + d);
    assert s + " // " + d == s + (" // " + d);
  }

  /** The raised error for a list `message` with well-formed `errors`:
      the list followed by the characters of the suffixes. */
  lemma PluginFailureOfList(items: seq<Value>, errors: seq<Value>)
    requires WellFormedErrors(errors)
    ensures PluginFailure(Dict(map["message" := List(items), "errors" := List(errors)]))
            == AnsibleError(List(items + Chars(Suffixes(Descriptions(errors)))))
  {
    if errors != [] {
      AppendDescriptionsToList(items, errors);
    } else {
      assert |Descriptions(errors)| == 0;
      assert Suffixes([]) == "";
      assert items + Chars("") == items;
    }
  }

  /** The error-message code of the plugin's `_request`, with its loop
      over `content['errors']`. */
  method BuildPluginFailure(content: Value) returns (e: Error)
    ensures e == PluginFailure(content)
  {
    if !content.Dict? { return Raised(TypeError); }
    if "message" !in content.fields || "errors" !in content.fields { return Raised(KeyError); }
    var msg := content.fields["message"];
    var errors := content.fields["errors"];
    if Truthy(errors) {
      if !errors.List? { return Raised(TypeError); }
      var i := 0;
      while i < |errors.items|
        invariant 0 <= i <= |errors.items|
        invariant AppendDescriptions(content.fields["message"], errors.items[..i]) == Ok(msg)
      {
        assert errors.items[..i + 1][..i] == errors.items[..i];
        var step := AppendDescription(msg, errors.items[i]);
        if step.Err? {
          assert AppendDescriptions(content.fields["message"], errors.items[..i + 1]) == step;
          PrefixErrorPersists(content.fields["message"], errors.items, i + 1);
          return step.error;
        }
        msg := step.value;
        i := i + 1;
      }
      assert errors.items[..i] == errors.items;
    }
    e := AnsibleError(msg);
  }

  /** Once an entry of `errors` raises, the whole loop raises the same. */
  lemma {:induction false} PrefixErrorPersists(msg: Value, errors: seq<Value>, n: nat)
    requires n <= |errors|
    requires AppendDescriptions(msg, errors[..n]).Err?
    ensures AppendDescriptions(msg, errors) == AppendDescriptions(msg, errors[..n])
    decreases |errors| - n
  {
    if n < |errors| {
      assert errors[..n + 1][..n] == errors[..n];
      PrefixErrorPersists(msg, errors, n + 1);
    } else {
      assert errors[..n] == errors;
    }
  }

  /** The plugin's result of a call: the body on 200, else the error. */
  function PluginReply(r: Response): (res: Result<Value>)
    ensures r.status == 200 <==> res.Ok?
    ensures res.Ok? ==> res.value == r.content
  {
    if r.status == 200 then Ok(r.content) else Err(PluginFailure(r.content))
  }

  /** The standalone client raises with just `content['message']`. */
  function StandaloneFailure(content: Value): (e: Error)
    ensures content.Dict? && "message" in content.fields ==> e == AnsibleError(content.fields["message"])
    ensures !content.Dict? ==> e == Raised(TypeError)
  {
    if !content.Dict? then Raised(TypeError)
    else if "message" !in content.fields then Raised(KeyError)
    else AnsibleError(content.fields["message"])
  }

  function StandaloneReply(r: Response): (res: Result<Value>)
    ensures r.status == 200 <==> res.Ok?
    ensures res.Ok? ==> res.value == r.content
    ensures res.Err? ==> res.error == StandaloneFailure(r.content)
  {
    if r.status == 200 then Ok(r.content) else Err(StandaloneFailure(r.content))
  }

  /** The two clients raise the same text when a reply lists no errors. */
  lemma FailuresAgreeWithoutErrors(message: Value, errors: Value)
    requires !Truthy(errors)
    ensures PluginFailure(Dict(map["message" := message, "errors" := errors]))
            == StandaloneFailure(Dict(map["message" := message, "errors" := errors]))
  {
  }

  /** A listing reply as the collection the client keeps: a JSON array of
      objects. Anything else is refused where it is fetched. */
  function AsRecords(v: Value): (r: Result<seq<Record>>)
    ensures r.Ok? ==> v.List? && |r.value| == |v.items|
    ensures r.Ok? ==> forall k :: 0 <= k < |v.items| ==> v.items[k] == Dict(r.value[k])
    ensures v.List? && (forall k :: 0 <= k < |v.items| ==> v.items[k].Dict?) ==> r.Ok?
  {
    if v.List? && forall k :: 0 <= k < |v.items| ==> v.items[k].Dict? then
      Ok(seq(|v.items|, k requires 0 <= k < |v.items| => v.items[k].fields))
    else Err(Raised(AttributeError))
  }
}
