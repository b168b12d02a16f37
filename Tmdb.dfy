/**
 * The TMDB request helper: credential resolution (session state, then
 * secrets, then environment), construction of the URL, query parameters and
 * headers, classification of the reply, and the post-processing of the
 * watch-provider region list.
 *
 * The three credential sources, the HTTP reply and its parsed JSON are
 * parameters; the request itself is returned as a value instead of being sent.
 */
module Tmdb {
  import opened Wrappers
  import opened Text

  // ----- credentials -----

  /** Where a credential can come from, in priority order. `secrets` is `None` when unavailable. */
  datatype Sources = Sources(
    session: map<string, string>,
    secrets: Option<map<string, string>>,
    environ: map<string, string>)

  /** `d.get(name)` */
  function Get(d: map<string, string>, name: string): (v: Option<string>)
    ensures v.Some? <==> name in d
    ensures v.Some? ==> v.value == d[name]
  {
    if name in d then Some(d[name]) else None
  }

  /** `st.secrets.get(name, None)`, or `None` when secrets are unavailable. */
  function SecretOf(src: Sources, name: string): (v: Option<string>)
    ensures v.Some? <==> src.secrets.Some? && name in src.secrets.value
    ensures v.Some? ==> v.value == src.secrets.value[name]
  {
    if src.secrets.Some? then Get(src.secrets.value, name) else None
  }

  /**
   * The value `get_api_key` / `get_access_token` settle on before stripping:
   * the session value if truthy, else the secret if truthy, else the
   * environment value (possibly absent or empty).
   */
  function Chosen(name: string, src: Sources): (k: Option<string>)
    ensures Truthy(Get(src.session, name)) ==> k == Get(src.session, name)
    ensures !Truthy(Get(src.session, name)) && Truthy(SecretOf(src, name)) ==> k == SecretOf(src, name)
    ensures !Truthy(Get(src.session, name)) && !Truthy(SecretOf(src, name)) ==> k == Get(src.environ, name)
  {
    var k := Get(src.session, name);
    var k := if Truthy(k) then k else SecretOf(src, name);
    if Truthy(k) then k else Get(src.environ, name)
  }

  /** `get_api_key` / `get_access_token`: `(k or "").strip()` of the chosen value. */
  function Resolve(name: string, src: Sources): (r: string)
    ensures !Truthy(Chosen(name, src)) ==> r == []
    ensures Truthy(Chosen(name, src)) ==> |r| <= |Chosen(name, src).value|
  {
    Strip(OrElse(Chosen(name, src), ""))
  }

  /**
   * The first truthy value among session state, secrets and environment wins
   * and is stripped; "" when none is set. Truthiness is tested before stripping.
   */
  lemma ResolvePriority(name: string, src: Sources)
    ensures Truthy(Get(src.session, name)) ==> Resolve(name, src) == Strip(src.session[name])
    ensures !Truthy(Get(src.session, name)) && Truthy(SecretOf(src, name)) ==>
              Resolve(name, src) == Strip(SecretOf(src, name).value)
    ensures !Truthy(Get(src.session, name)) && !Truthy(SecretOf(src, name)) && Truthy(Get(src.environ, name)) ==>
              Resolve(name, src) == Strip(src.environ[name])
    ensures !Truthy(Get(src.session, name)) && !Truthy(SecretOf(src, name)) && !Truthy(Get(src.environ, name)) ==>
              Resolve(name, src) == []
  {
    var k := Chosen(name, src);
    if !Truthy(k) {
      assert OrElse(k, "") == "";
      assert Strip("") == [];
    }
  }

  /** A credential resolves to "" exactly when the chosen value is missing, empty or white space only. */
  lemma ResolveEmptyIff(name: string, src: Sources)
    ensures Resolve(name, src) == [] <==> !Truthy(Chosen(name, src)) || AllIn(Chosen(name, src).value, WhiteSpace)
  {
    StripEmptyIffBlank(OrElse(Chosen(name, src), ""));
  }

  /**
   * A white-space-only value in the session state still wins over secrets and
   * environment, and resolves to "".
   */
  lemma BlankSessionValueWins(name: string, src: Sources)
    requires name in src.session && src.session[name] != [] && AllIn(src.session[name], WhiteSpace)
    ensures Resolve(name, src) == []
  {
    StripEmptyIffBlank(src.session[name]);
  }

  /** A resolved credential never starts or ends with white space. */
  lemma ResolvedIsTrimmed(name: string, src: Sources)
    ensures var r := Resolve(name, src);
            r == [] || (r[0] !in WhiteSpace && r[|r| - 1] !in WhiteSpace)
  {
    var s := OrElse(Chosen(name, src), "");
    assert Resolve(name, src) == Strip(s);
    StripTrimmed(s);
  }

  /** `get_api_key`: `TMDB_API_KEY` from session state, then secrets, then environment, stripped. */
  function GetApiKey(src: Sources): (key: string)
    ensures Truthy(Get(src.session, "TMDB_API_KEY")) ==> key == Strip(src.session["TMDB_API_KEY"])
    ensures !Truthy(Get(src.session, "TMDB_API_KEY")) && Truthy(SecretOf(src, "TMDB_API_KEY")) ==>
              key == Strip(SecretOf(src, "TMDB_API_KEY").value)
    ensures !Truthy(Get(src.session, "TMDB_API_KEY")) && !Truthy(SecretOf(src, "TMDB_API_KEY")) ==>
              key == Strip(OrElse(Get(src.environ, "TMDB_API_KEY"), ""))
  {
    ResolvePriority("TMDB_API_KEY", src);
    Resolve("TMDB_API_KEY", src)
  }

  /** `get_access_token`: `TMDB_ACCESS_TOKEN` from session state, then secrets, then environment, stripped. */
  function GetAccessToken(src: Sources): (token: string)
    ensures Truthy(Get(src.session, "TMDB_ACCESS_TOKEN")) ==> token == Strip(src.session["TMDB_ACCESS_TOKEN"])
    ensures !Truthy(Get(src.session, "TMDB_ACCESS_TOKEN")) && Truthy(SecretOf(src, "TMDB_ACCESS_TOKEN")) ==>
              token == Strip(SecretOf(src, "TMDB_ACCESS_TOKEN").value)
    ensures !Truthy(Get(src.session, "TMDB_ACCESS_TOKEN")) && !Truthy(SecretOf(src, "TMDB_ACCESS_TOKEN")) ==>
              token == Strip(OrElse(Get(src.environ, "TMDB_ACCESS_TOKEN"), ""))
  {
    ResolvePriority("TMDB_ACCESS_TOKEN", src);
    Resolve("TMDB_ACCESS_TOKEN", src)
  }

  // ----- tmdb_request -----

  datatype Json =
    | JNull
    | JBool(b: bool)
    | JNumber(n: real)
    | JString(s: string)
    | JArray(items: seq<Json>)
    | JObject(fields: map<string, Json>)

  const EmptyObject := JObject(map[])

  /**
   * What the transport yields for a request: an exception, or a reply with its
   * `ok` flag, status, body text, and the result of `r.json()` (`None` when it
   * raises `ValueError`).
   */
  datatype Response =
    | TransportError
    | Received(ok: bool, status: int, text: string, json: Option<Json>)

  /** A request as it would be sent. */
  datatype Request = Request(url: string, params: map<string, string>, headers: map<string, string>)

  /**
   * The reply handling of `tmdb_request`: the parsed JSON of an OK reply with a
   * non-blank body that parses; `{}` for every failure.
   */
  function Classify(reply: Response): (data: Json)
    ensures reply.Received? && reply.ok && Strip(reply.text) != [] && reply.json.Some? ==>
              data == reply.json.value
    ensures reply.TransportError? || !reply.ok || Strip(reply.text) == [] || reply.json.None? ==>
              data == EmptyObject
  {
    match reply
    case TransportError => EmptyObject
    case Received(ok, _, text, json) =>
      if !ok then EmptyObject
      else if text == [] || Strip(text) == [] then EmptyObject
      else if json.None? then EmptyObject
      else json.value
  }

  /** The caller's parameters, `(params or {})`. */
  function CallerParams(params: Option<map<string, string>>): (q: map<string, string>)
    ensures params.Some? ==> q == params.value
    ensures params.None? ==> q == map[]
  {
    if params.Some? then params.value else map[]
  }

  /** The query after authentication: `api_key` is added only when there is no v4 token. */
  function AuthQuery(caller: map<string, string>, v4: string, v3: string): (q: map<string, string>)
    ensures v4 == [] ==> "api_key" in q && q["api_key"] == v3
    ensures q.Keys == if v4 == [] then caller.Keys + {"api_key"} else caller.Keys
  {
    if v4 != [] then caller else caller["api_key" := v3]
  }

  /** The query after the `language` default. */
  function LangQuery(q: map<string, string>, lang: string): (r: map<string, string>)
    ensures r.Keys == if lang != [] then q.Keys + {"language"} else q.Keys
    ensures "language" in q ==> r["language"] == q["language"]
  {
    if "language" !in q && lang != [] then q["language" := lang] else q
  }

  lemma AuthQueryFacts(caller: map<string, string>, v4: string, v3: string)
    ensures var q := AuthQuery(caller, v4, v3);
            && (v4 != [] ==> q == caller)
            && (v4 == [] ==> "api_key" in q && q["api_key"] == v3)
            && (forall k :: k != "api_key" ==> (k in q <==> k in caller) && (k in caller ==> q[k] == caller[k]))
  {
  }

  lemma LangQueryFacts(q: map<string, string>, lang: string)
    ensures var r := LangQuery(q, lang);
            && ("language" in q ==> "language" in r && r["language"] == q["language"])
            && ("language" !in q ==> ("language" in r <==> lang != []))
            && ("language" !in q && lang != [] ==> r["language"] == lang)
            && (forall k :: k != "language" ==> (k in r <==> k in q) && (k in q ==> r[k] == q[k]))
  {
  }

  /** The parameters sent: the caller's, authenticated and with the `language` default. */
  lemma QueryFacts(caller: map<string, string>, v4: string, v3: string, lang: string)
    ensures var q := LangQuery(AuthQuery(caller, v4, v3), lang);
            && (v4 != [] ==> ("api_key" in q <==> "api_key" in caller)
                             && ("api_key" in caller ==> q["api_key"] == caller["api_key"]))
            && (v4 == [] ==> "api_key" in q && q["api_key"] == v3)
            && ("language" in caller ==> "language" in q && q["language"] == caller["language"])
            && ("language" !in caller ==> ("language" in q <==> lang != []))
            && ("language" !in caller && lang != [] ==> q["language"] == lang)
            && (forall k :: k != "api_key" && k != "language" ==>
                  (k in q <==> k in caller) && (k in caller ==> q[k] == caller[k]))
  {
    assert "api_key"[0] != "language"[0];
    AuthQueryFacts(caller, v4, v3);
    LangQueryFacts(AuthQuery(caller, v4, v3), lang);
  }

  /**
   * The request part of `tmdb_request`, given the resolved v4 token and v3 key:
   * builds `base/endpoint`, copies the caller's parameters, authenticates with
   * the token as a Bearer header or else with the key as `api_key` (no request
   * when neither is set), and defaults `language`.
   */
  method BuildRequest(base: string, endpoint: string, params: Option<map<string, string>>, lang: string,
                      v4: string, v3: string)
    returns (sent: Option<Request>)
    ensures sent.None? <==> v4 == [] && v3 == []
    ensures sent.Some? ==> sent.value.url == base + "/" + TrimStart(endpoint, {'/'})
    ensures sent.Some? ==> sent.value.params == LangQuery(AuthQuery(CallerParams(params), v4, v3), lang)
    ensures v4 != [] ==>
              sent.Some? && sent.value.headers == map["accept" := "application/json", "Authorization" := "Bearer " + v4]
    ensures v4 == [] && v3 != [] ==> sent.Some? && sent.value.headers == map["accept" := "application/json"]
  {
    var url := base + "/" + TrimStart(endpoint, {'/'});
    var query := CallerParams(params);
    var headers := map["accept" := "application/json"];

    if v4 != [] {
      headers := headers["Authorization" := "Bearer " + v4];
    } else {
      if v3 == [] {
        return None;
      }
      query := query["api_key" := v3];
    }

    assert query == AuthQuery(CallerParams(params), v4, v3);
    if "language" !in query && lang != [] {
      query := query["language" := lang];
    }
    assert query == LangQuery(AuthQuery(CallerParams(params), v4, v3), lang);

    sent := Some(Request(url, query, headers));
  }

  /** The reply part of `tmdb_request`, step by step as the source tests it. */
  method ReadReply(reply: Response) returns (data: Json)
    ensures data == Classify(reply)
    ensures data != EmptyObject ==> reply.Received? && reply.ok && reply.json == Some(data)
  {
    match reply {
      case TransportError =>
        data := EmptyObject;
      case Received(ok, _, raw, json) =>
        if !ok {
          data := EmptyObject;
        } else if raw == [] || Strip(raw) == [] {
          data := EmptyObject;
        } else if json.None? {
          data := EmptyObject;
        } else {
          data := json.value;
        }
    }
  }

  /**
   * `tmdb_request`: resolves the credentials, builds the request (giving up
   * with `{}` when there are none) and collapses every failure of the reply
   * to `{}`.
   */
  method TmdbRequest(base: string, endpoint: string, params: Option<map<string, string>>, lang: string,
                     src: Sources, reply: Response)
    returns (sent: Option<Request>, data: Json)
    ensures sent.None? <==> GetAccessToken(src) == [] && GetApiKey(src) == []
    ensures sent.None? ==> data == EmptyObject
    ensures sent.Some? ==> data == Classify(reply)
    ensures sent.Some? ==> sent.value.url == base + "/" + TrimStart(endpoint, {'/'})
    ensures sent.Some? ==>
              sent.value.params == LangQuery(AuthQuery(CallerParams(params), GetAccessToken(src), GetApiKey(src)), lang)
    ensures GetAccessToken(src) != [] ==>
              && sent.Some?
              && sent.value.headers
                 == map["accept" := "application/json", "Authorization" := "Bearer " + GetAccessToken(src)]
    ensures GetAccessToken(src) == [] && GetApiKey(src) != [] ==>
              sent.Some? && sent.value.headers == map["accept" := "application/json"]
  {
    var v4 := GetAccessToken(src);
    var v3 := GetApiKey(src);
    sent := BuildRequest(base, endpoint, params, lang, v4, v3);
    if sent.None? {
      return None, EmptyObject;
    }
    data := ReadReply(reply);
  }

  // ----- get_provider_regions -----

  predicate StrictlySorted(xs: seq<string>) {
    forall i, j :: 0 <= i < j < |xs| ==> Less(xs[i], xs[j])
  }

  /** `data.get("results")` when it is a list inside a dict; otherwise nothing. */
  function ResultsOf(data: Json): (items: seq<Json>)
    ensures items != [] ==> data.JObject? && "results" in data.fields && data.fields["results"] == JArray(items)
  {
    if data.JObject? && "results" in data.fields && data.fields["results"].JArray?
    then data.fields["results"].items
    else []
  }

  /** The region code of one entry: a non-empty `iso_3166_1` string of a dict. */
  function Code(x: Json): (c: Option<string>)
    ensures c.Some? ==> c.value != [] && x.JObject? && "iso_3166_1" in x.fields && x.fields["iso_3166_1"] == JString(c.value)
    ensures c.None? && x.JObject? && "iso_3166_1" in x.fields && x.fields["iso_3166_1"].JString? ==> x.fields["iso_3166_1"].s == []
  {
    if x.JObject? && "iso_3166_1" in x.fields && x.fields["iso_3166_1"].JString?
       && x.fields["iso_3166_1"].s != []
    then Some(x.fields["iso_3166_1"].s)
    else None
  }

  /** Inserts `c` into a strictly sorted list unless it is already there. */
  function InsertSorted(xs: seq<string>, c: string): (r: seq<string>)
    requires StrictlySorted(xs)
    ensures StrictlySorted(r)
    ensures forall y :: y in r <==> y in xs || y == c
  {
    if xs == [] then [c]
    else if c == xs[0] then xs
    else if Less(c, xs[0]) then
      assert forall j :: 0 < j < |xs| ==> Less(c, xs[j]) by {
        forall j | 0 < j < |xs| ensures Less(c, xs[j]) {
          LessTransitive(c, xs[0], xs[j]);
        }
      }
      [c] + xs
    else
      LessTotal(c, xs[0]);
      var rest := InsertSorted(xs[1..], c);
      assert forall y :: y in rest ==> Less(xs[0], y);
      [xs[0]] + rest
  }

  /** The codes of the entries, gathered into a strictly sorted list. */
  function SortedCodes(items: seq<Json>): (r: seq<string>)
    ensures StrictlySorted(r)
    ensures forall c :: c in r <==> exists x :: x in items && Code(x) == Some(c)
  {
    if items == [] then []
    else
      var init := items[..|items| - 1];
      var last := items[|items| - 1];
      var codes := SortedCodes(init);
      assert forall x :: x in items <==> x in init || x == last by {
        assert items == init + [last];
      }
      if Code(last).Some? then InsertSorted(codes, Code(last).value) else codes
  }

  /**
   * The post-processing of `get_provider_regions`: the sorted, duplicate-free
   * non-empty `iso_3166_1` codes of the dict entries of `results`.
   */
  function RegionCodes(data: Json): (r: seq<string>)
    ensures StrictlySorted(r)
    ensures forall c :: c in r <==> exists x :: x in ResultsOf(data) && Code(x) == Some(c)
    ensures ResultsOf(data) == [] ==> r == []
  {
    var results := ResultsOf(data);
    if results == [] then [] else SortedCodes(results)
  }

  /** Two strictly sorted lists with the same elements are equal. */
  lemma {:induction false} SortedUnique(a: seq<string>, b: seq<string>)
    requires StrictlySorted(a) && StrictlySorted(b)
    requires forall x :: x in a <==> x in b
    ensures a == b
    decreases |a|
  {
    assert a != [] ==> a[0] in b;
    assert b != [] ==> b[0] in a;
    assert a == [] <==> b == [];
    if a != [] {
      assert a[0] == b[0] by {
        var i :| 0 <= i < |a| && a[i] == b[0];
        var j :| 0 <= j < |b| && b[j] == a[0];
        LessIrreflexive(a[0]);
        NotBothLess(a[0], b[0]);
      }
      forall x ensures x in a[1..] <==> x in b[1..] {
        SortedTail(a, x);
        SortedTail(b, x);
      }
      assert StrictlySorted(a[1..]) by {
        forall i, j | 0 <= i < j < |a| - 1 ensures Less(a[1..][i], a[1..][j]) {
          assert a[1..][i] == a[i + 1] && a[1..][j] == a[j + 1];
        }
      }
      assert StrictlySorted(b[1..]) by {
        forall i, j | 0 <= i < j < |b| - 1 ensures Less(b[1..][i], b[1..][j]) {
          assert b[1..][i] == b[i + 1] && b[1..][j] == b[j + 1];
        }
      }
      SortedUnique(a[1..], b[1..]);
      assert a == [a[0]] + a[1..] && b == [b[0]] + b[1..];
    }
  }

  lemma NotBothLess(x: string, y: string)
    ensures !(Less(x, y) && Less(y, x))
  {
    if Less(x, y) {
      LessAsymmetric(x, y);
    }
  }

  /** In a strictly sorted list, the tail holds exactly the elements other than the head. */
  lemma SortedTail(xs: seq<string>, x: string)
    requires StrictlySorted(xs) && xs != []
    ensures x in xs[1..] <==> x in xs && x != xs[0]
  {
    if x in xs[1..] {
      var k :| 0 <= k < |xs| - 1 && xs[1..][k] == x;
      assert Less(xs[0], xs[k + 1]);
      LessIrreflexive(xs[0]);
    }
    if x in xs && x != xs[0] {
      assert xs == [xs[0]] + xs[1..];
    }
  }

  /**
   * `sorted(set(...))`: any strictly sorted list holding exactly the region
   * codes is the result of `RegionCodes`.
   */
  lemma RegionCodesIsSortedSet(data: Json, s: seq<string>)
    requires StrictlySorted(s)
    requires forall c :: c in s <==> exists x :: x in ResultsOf(data) && Code(x) == Some(c)
    ensures s == RegionCodes(data)
  {
    SortedUnique(s, RegionCodes(data));
  }

  /** Strictly sorted lists have no duplicates. */
  lemma SortedHasNoDuplicates(xs: seq<string>)
    requires StrictlySorted(xs)
    ensures forall i, j :: 0 <= i < j < |xs| ==> xs[i] != xs[j]
  {
    forall i, j | 0 <= i < j < |xs| ensures xs[i] != xs[j] {
      LessIrreflexive(xs[i]);
    }
  }

  /**
   * `get_provider_regions`: asks the region endpoint with `language=en-US` and
   * returns the sorted region codes; `[]` when the request fails in any way.
   */
  method GetProviderRegions(base: string, src: Sources, reply: Response) returns (codes: seq<string>)
    ensures GetAccessToken(src) == [] && GetApiKey(src) == [] ==> codes == []
    ensures GetAccessToken(src) != [] || GetApiKey(src) != [] ==> codes == RegionCodes(Classify(reply))
    ensures StrictlySorted(codes)
  {
    var _, data := TmdbRequest(base, "watch/providers/regions", Some(map["language" := "en-US"]), "ko-KR",
                               src, reply);
    codes := RegionCodes(data);
  }
}
