/** The decisions the web layer makes: which origins CORS admits, how the Grow data and
    photo responses are shaped from the cache and the Hatch API, and which HTTP status
    each device-call outcome becomes. Cache lookups, the login call and the fetches are
    inputs, already reduced to what the cache and client models return. */
module Api {
  import opened Wrappers
  import opened Json
  import Strings
  import Devices

  // ---- CORS origins ----

  const DefaultOrigins: seq<string> := ["https://shray7.github.io", "http://localhost:5173", "http://localhost:8000"]

  /** What an origin list may hold: non-empty entries with no surrounding whitespace. */
  predicate Entries(r: seq<string>)
  {
    forall i :: 0 <= i < |r| ==> r[i] != "" && Strings.Trimmed(r[i])
  }

  /** `[o.strip() for o in pieces if o.strip()]`. */
  function NonEmptyStripped(pieces: seq<string>): (r: seq<string>)
    ensures |r| <= |pieces|
  {
    if pieces == [] then []
    else
      var o := Strings.Strip(pieces[0]);
      (if o != "" then [o] else []) + NonEmptyStripped(pieces[1..])
  }

  /** Every entry kept is non-empty and has no surrounding whitespace. */
  lemma {:induction false} NonEmptyStrippedTrimmed(pieces: seq<string>)
    ensures Entries(NonEmptyStripped(pieces))
  {
    if pieces != [] {
      NonEmptyStrippedTrimmed(pieces[1..]);
      var o := Strings.Strip(pieces[0]);
      var rest := NonEmptyStripped(pieces[1..]);
      if o != "" {
        assert Strings.Trimmed(o);
        var r := [o] + rest;
        assert NonEmptyStripped(pieces) == r;
        forall i | 0 <= i < |r| ensures r[i] != "" && Strings.Trimmed(r[i]) {
          if i > 0 {
            assert r[i] == rest[i - 1];
          }
        }
      } else {
        assert NonEmptyStripped(pieces) == rest;
      }
    }
  }

  /** The comprehension keeps the pieces' order: it works piece by piece. */
  lemma {:induction false} NonEmptyStrippedAppend(a: seq<string>, b: seq<string>)
    ensures NonEmptyStripped(a + b) == NonEmptyStripped(a) + NonEmptyStripped(b)
  {
    if a != [] {
      var h := if Strings.Strip(a[0]) != "" then [Strings.Strip(a[0])] else [];
      assert (a + b)[0] == a[0] && (a + b)[1..] == a[1..] + b;
      assert NonEmptyStripped(a + b) == h + NonEmptyStripped(a[1..] + b);
      NonEmptyStrippedAppend(a[1..], b);
      assert NonEmptyStripped(a) == h + NonEmptyStripped(a[1..]);
    } else {
      assert a + b == b;
    }
  }

  /** Pieces that are already non-empty and trimmed pass through unchanged. */
  lemma {:induction false} NonEmptyStrippedKeeps(pieces: seq<string>)
    requires Entries(pieces)
    ensures NonEmptyStripped(pieces) == pieces
  {
    if pieces != [] {
      var rest := pieces[1..];
      assert pieces == [pieces[0]] + rest;
      assert Strings.Trimmed(pieces[0]);
      Strings.StripTrimmed(pieces[0]);
      EntriesTail(pieces);
      NonEmptyStrippedKeeps(rest);
    }
  }

  lemma EntriesTail(pieces: seq<string>)
    requires pieces != [] && Entries(pieces)
    ensures Entries(pieces[1..])
  {
  }

  /** The `CORS_ORIGINS` setting: the defaults when it is unset or blank, otherwise its
      comma-separated entries, stripped, with empty entries dropped. */
  function CorsOrigins(setting: Option<string>): (r: seq<string>)
    ensures var raw := Strings.Strip(if setting.Some? then setting.value else "");
      raw == "" ==> r == DefaultOrigins
    ensures var raw := Strings.Strip(if setting.Some? then setting.value else "");
      raw != "" ==> Entries(r)
  {
    var raw := Strings.Strip(if setting.Some? then setting.value else "");
    if raw == "" then DefaultOrigins
    else
      var pieces := Strings.Split(raw, ',');
      NonEmptyStrippedTrimmed(pieces);
      NonEmptyStripped(pieces)
  }

  /** An unset or whitespace-only setting gives the defaults. */
  lemma BlankCors(setting: Option<string>)
    requires setting.Some? ==> forall i :: 0 <= i < |setting.value| ==> Strings.IsSpace(setting.value[i])
    ensures CorsOrigins(setting) == DefaultOrigins
  {
    if setting.Some? {
      Strings.StripAllSpace(setting.value);
    }
  }

  /** Blank pieces are all dropped. */
  lemma {:induction false} NonEmptyStrippedBlank(pieces: seq<string>)
    requires forall i :: 0 <= i < |pieces| ==> pieces[i] == ""
    ensures NonEmptyStripped(pieces) == []
  {
    if pieces != [] {
      assert Strings.Strip(pieces[0]) == "";
      NonEmptyStrippedBlank(pieces[1..]);
    }
  }

  /** A setting made only of separators admits no origin at all: it is not blank, so
      the defaults are not used either. */
  lemma CommaOnlyCors(setting: string)
    requires setting != "" && forall i :: 0 <= i < |setting| ==> setting[i] == ','
    ensures CorsOrigins(Some(setting)) == []
  {
    assert !Strings.IsSpace(setting[0]) && !Strings.IsSpace(setting[|setting| - 1]);
    Strings.StripNoSpaceEnds(setting);
    Strings.SplitSeparators(setting, ',');
    NonEmptyStrippedBlank(Strings.Split(setting, ','));
  }

  /** Origins written out joined by commas are read back exactly, in order. */
  lemma CorsRoundTrip(origins: seq<string>)
    requires origins != []
    requires Entries(origins) && forall i :: 0 <= i < |origins| ==> ',' !in origins[i]
    ensures CorsOrigins(Some(Strings.Join(origins, ","))) == origins
  {
    var text := Strings.Join(origins, ",");
    Strings.JoinTrimmed(origins, ",");
    Strings.StripTrimmed(text);
    Strings.SplitJoin(origins, ',');
    NonEmptyStrippedKeeps(origins);
  }

  // ---- responses ----

  /** What a handler produces: a JSON body, an HTTPException, or an exception nothing
      catches (which the framework turns into a 500). */
  datatype Response = Body(fields: Object) | HttpError(status: int, detail: string) | Crash(error: string)

  const CredentialsRequired: string := "HATCH_EMAIL and HATCH_PASSWORD required"

  /** The login data a handler works with: a cached non-empty login, else a fresh login
      (a failed one becomes 503). */
  function LoginData(cachedLogin: Option<Object>, login: Result<Object>): (r: Result<Object>)
    ensures cachedLogin.Some? && cachedLogin.value != map[] ==> r == Ok(cachedLogin.value)
    ensures !(cachedLogin.Some? && cachedLogin.value != map[]) ==> r == login
  {
    if cachedLogin.Some? && cachedLogin.value != map[] then Ok(cachedLogin.value) else login
  }

  /** `login_data.get("payload", {}).get("babies", [])`: a payload that is not a dict
      has no `get`. */
  function Babies(loginData: Object): (r: Result<Value>)
    ensures "payload" !in loginData ==> r == Ok(List([]))
    ensures r.Err? <==> "payload" in loginData && !loginData["payload"].Dict?
    ensures r.Ok? && "payload" in loginData ==> r.value == GetOr(loginData["payload"].fields, "babies", List([]))
  {
    var payload := GetOr(loginData, "payload", Dict(map[]));
    if !payload.Dict? then Err("AttributeError: object has no attribute 'get'")
    else Ok(GetOr(payload.fields, "babies", List([])))
  }

  /** `babies[0]["id"]` on a truthy value: only a list whose first element is a dict
      with an "id" gets through. */
  function FirstBabyId(babies: Value): (r: Result<Value>)
    ensures r.Ok? <==> babies.List? && babies.items != [] && babies.items[0].Dict? && "id" in babies.items[0].fields
    ensures r.Ok? ==> r.value == babies.items[0].fields["id"]
  {
    if babies.List? && babies.items != [] && babies.items[0].Dict? && "id" in babies.items[0].fields
    then Ok(babies.items[0].fields["id"])
    else Err("TypeError or KeyError on babies[0][\"id\"]")
  }

  /** What one fetch yields inside `safe_fetch`: its result, or `[]` if it raised. */
  function SafeFetch(r: Result<Value>): Value
  {
    if r.Ok? then r.value else List([])
  }

  /** `cached.get(key) or []`. */
  function CachedList(cached: Object, key: string): (v: Value)
    ensures Truthy(Get(cached, key)) ==> v == cached[key]
    ensures !Truthy(Get(cached, key)) ==> v == List([])
  {
    Or(Get(cached, key), List([]))
  }

  datatype GrowFetches = GrowFetches(diapers: Result<Value>, feedings: Result<Value>, sleeps: Result<Value>,
                                     weights: Result<Value>)

  function GrowBody(babies: Value, feedings: Value, diapers: Value, sleeps: Value, weights: Value): Object
  {
    map["babies" := babies, "feedings" := feedings, "diapers" := diapers, "sleeps" := sleeps, "weights" := weights]
  }

  /** `grow_data`: credentials, login (cached or fresh), then the first baby's data from
      the cache when a non-empty dict is cached, else from the four fetches. */
  function GrowData(email: Option<string>, password: Option<string>, cachedLogin: Option<Object>,
                    login: Result<Object>, cachedGrow: Option<Object>, fetched: GrowFetches): (r: Response)
    ensures Devices.Missing(email) || Devices.Missing(password) <==> r == HttpError(503, CredentialsRequired)
    ensures !Devices.Missing(email) && !Devices.Missing(password) && LoginData(cachedLogin, login).Err? ==>
      r == HttpError(503, "Login failed: " + LoginData(cachedLogin, login).msg)
  {
    if Devices.Missing(email) || Devices.Missing(password) then HttpError(503, CredentialsRequired)
    else
      match LoginData(cachedLogin, login)
      case Err(m) => assert ("Login failed: " + m)[0] != CredentialsRequired[0]; HttpError(503, "Login failed: " + m)
      case Ok(loginData) =>
        match Babies(loginData)
        case Err(m) => Crash(m)
        case Ok(babies) =>
          if !Truthy(babies) then Body(GrowBody(List([]), List([]), List([]), List([]), List([])))
          else if FirstBabyId(babies).Err? then Crash(FirstBabyId(babies).msg)
          else if "token" !in loginData then Crash("KeyError: 'token'")
          else if cachedGrow.Some? && cachedGrow.value != map[] then
            var c := cachedGrow.value;
            Body(GrowBody(babies, CachedList(c, "feedings"), CachedList(c, "diapers"), CachedList(c, "sleeps"),
                          CachedList(c, "weights")))
          else
            Body(GrowBody(babies, SafeFetch(fetched.feedings), SafeFetch(fetched.diapers),
                          SafeFetch(fetched.sleeps), SafeFetch(fetched.weights)))
  }

  /** With credentials and a login whose payload lists no baby, every list is empty,
      whatever is cached or fetched. */
  lemma GrowDataNoBabies(email: Option<string>, password: Option<string>, cachedLogin: Option<Object>,
                         login: Result<Object>, cachedGrow: Option<Object>, fetched: GrowFetches)
    requires !Devices.Missing(email) && !Devices.Missing(password)
    requires var d := LoginData(cachedLogin, login); d.Ok? && Babies(d.value).Ok? && !Truthy(Babies(d.value).value)
    ensures var r := GrowData(email, password, cachedLogin, login, cachedGrow, fetched);
      r.Body? && forall k :: k in r.fields ==> r.fields[k] == List([])
    ensures GrowData(email, password, cachedLogin, login, cachedGrow, fetched).fields.Keys
         == {"babies", "feedings", "diapers", "sleeps", "weights"}
  {
  }

  /** A cache hit answers from the cache alone: each list is the cached one, or `[]`
      when it is missing or falsy, and the fetches play no part. */
  lemma GrowDataCacheHit(email: Option<string>, password: Option<string>, cachedLogin: Option<Object>,
                         login: Result<Object>, cached: Object, fetched: GrowFetches, other: GrowFetches)
    requires !Devices.Missing(email) && !Devices.Missing(password) && cached != map[]
    requires var d := LoginData(cachedLogin, login);
      d.Ok? && "token" in d.value && Babies(d.value).Ok? && Truthy(Babies(d.value).value)
      && FirstBabyId(Babies(d.value).value).Ok?
    ensures var r := GrowData(email, password, cachedLogin, login, Some(cached), fetched);
      r == GrowData(email, password, cachedLogin, login, Some(cached), other)
      && r == Body(GrowBody(Babies(LoginData(cachedLogin, login).value).value, CachedList(cached, "feedings"),
                            CachedList(cached, "diapers"), CachedList(cached, "sleeps"), CachedList(cached, "weights")))
  {
  }

  /** A cache miss answers from the four fetches: each list is what its fetch returned,
      or `[]` when that fetch raised, and the babies come from the login payload. */
  lemma GrowDataFetched(email: Option<string>, password: Option<string>, cachedLogin: Option<Object>,
                        login: Result<Object>, cachedGrow: Option<Object>, fetched: GrowFetches)
    requires !Devices.Missing(email) && !Devices.Missing(password)
    requires var d := LoginData(cachedLogin, login);
      d.Ok? && "token" in d.value && Babies(d.value).Ok? && Truthy(Babies(d.value).value)
      && FirstBabyId(Babies(d.value).value).Ok?
    requires cachedGrow.None? || cachedGrow.value == map[]
    ensures var babies := Babies(LoginData(cachedLogin, login).value).value;
      GrowData(email, password, cachedLogin, login, cachedGrow, fetched)
      == Body(GrowBody(babies, SafeFetch(fetched.feedings), SafeFetch(fetched.diapers), SafeFetch(fetched.sleeps),
                       SafeFetch(fetched.weights)))
    ensures var r := GrowData(email, password, cachedLogin, login, cachedGrow, fetched);
      r.Body? && (fetched.sleeps.Ok? ==> r.fields["sleeps"] == fetched.sleeps.value)
      && (fetched.sleeps.Err? ==> r.fields["sleeps"] == List([]))
  {
  }

  /** Once a login is at hand, `grow_data` raises exactly when the payload is not a dict,
      or there is a baby and `babies[0]["id"]` or the token lookup fails; the cache and
      the fetches play no part in that. */
  lemma GrowDataCrash(email: Option<string>, password: Option<string>, cachedLogin: Option<Object>,
                      login: Result<Object>, cachedGrow: Option<Object>, fetched: GrowFetches)
    requires !Devices.Missing(email) && !Devices.Missing(password) && LoginData(cachedLogin, login).Ok?
    ensures var d := LoginData(cachedLogin, login).value;
      var r := GrowData(email, password, cachedLogin, login, cachedGrow, fetched);
      r.Crash? <==> Babies(d).Err?
                    || (Truthy(Babies(d).value) && (FirstBabyId(Babies(d).value).Err? || "token" !in d))
    ensures var d := LoginData(cachedLogin, login).value;
      var r := GrowData(email, password, cachedLogin, login, cachedGrow, fetched);
      Babies(d).Ok? && Truthy(Babies(d).value) && FirstBabyId(Babies(d).value).Ok? && "token" !in d ==>
        r == Crash("KeyError: 'token'")
  {
  }

  /** `grow_photos`: like `grow_data`, except that the token is read before the babies
      are looked at, and a cached photo list is returned whenever one is cached, even
      an empty one. */
  function GrowPhotos(email: Option<string>, password: Option<string>, cachedLogin: Option<Object>,
                      login: Result<Object>, cachedPhotos: Option<seq<Value>>, fetched: Result<Value>): (r: Response)
    ensures Devices.Missing(email) || Devices.Missing(password) <==> r == HttpError(503, CredentialsRequired)
    ensures !Devices.Missing(email) && !Devices.Missing(password) && LoginData(cachedLogin, login).Err? ==>
      r == HttpError(503, "Login failed: " + LoginData(cachedLogin, login).msg)
  {
    if Devices.Missing(email) || Devices.Missing(password) then HttpError(503, CredentialsRequired)
    else
      match LoginData(cachedLogin, login)
      case Err(m) => assert ("Login failed: " + m)[0] != CredentialsRequired[0]; HttpError(503, "Login failed: " + m)
      case Ok(loginData) =>
        if "token" !in loginData then Crash("KeyError: 'token'")
        else
          match Babies(loginData)
          case Err(m) => Crash(m)
          case Ok(babies) =>
            if !Truthy(babies) then Body(map["photos" := List([])])
            else if FirstBabyId(babies).Err? then Crash(FirstBabyId(babies).msg)
            else if cachedPhotos.Some? then Body(map["photos" := List(cachedPhotos.value)])
            else if fetched.Err? then Crash(fetched.msg)
            else Body(map["photos" := fetched.value])
  }

  /** Any cached photo list, the empty one included, is the answer; nothing is fetched. */
  lemma GrowPhotosCached(email: Option<string>, password: Option<string>, cachedLogin: Option<Object>,
                         login: Result<Object>, photos: seq<Value>, fetched: Result<Value>)
    requires !Devices.Missing(email) && !Devices.Missing(password)
    requires var d := LoginData(cachedLogin, login);
      d.Ok? && "token" in d.value && Babies(d.value).Ok? && Truthy(Babies(d.value).value)
      && FirstBabyId(Babies(d.value).value).Ok?
    ensures GrowPhotos(email, password, cachedLogin, login, Some(photos), fetched) == Body(map["photos" := List(photos)])
  {
  }

  /** With credentials and a login whose payload lists no baby, the answer is an empty
      photo list, whatever is cached or fetched. */
  lemma GrowPhotosNoBabies(email: Option<string>, password: Option<string>, cachedLogin: Option<Object>,
                           login: Result<Object>, cachedPhotos: Option<seq<Value>>, fetched: Result<Value>)
    requires !Devices.Missing(email) && !Devices.Missing(password)
    requires var d := LoginData(cachedLogin, login);
      d.Ok? && "token" in d.value && Babies(d.value).Ok? && !Truthy(Babies(d.value).value)
    ensures GrowPhotos(email, password, cachedLogin, login, cachedPhotos, fetched) == Body(map["photos" := List([])])
  {
  }

  /** Without cached photos the answer is what `fetch_photos` returned; its exception is
      not caught. */
  lemma GrowPhotosFetched(email: Option<string>, password: Option<string>, cachedLogin: Option<Object>,
                          login: Result<Object>, fetched: Result<Value>)
    requires !Devices.Missing(email) && !Devices.Missing(password)
    requires var d := LoginData(cachedLogin, login);
      d.Ok? && "token" in d.value && Babies(d.value).Ok? && Truthy(Babies(d.value).value)
      && FirstBabyId(Babies(d.value).value).Ok?
    ensures fetched.Ok? ==> GrowPhotos(email, password, cachedLogin, login, None, fetched)
                            == Body(map["photos" := fetched.value])
    ensures fetched.Err? ==> GrowPhotos(email, password, cachedLogin, login, None, fetched) == Crash(fetched.msg)
  {
  }

  /** Once a login is at hand, `grow_photos` raises exactly when the token is missing,
      the payload is not a dict, or there is a baby and either `babies[0]["id"]` fails or
      nothing is cached and the fetch raises. */
  lemma GrowPhotosCrash(email: Option<string>, password: Option<string>, cachedLogin: Option<Object>,
                        login: Result<Object>, cachedPhotos: Option<seq<Value>>, fetched: Result<Value>)
    requires !Devices.Missing(email) && !Devices.Missing(password) && LoginData(cachedLogin, login).Ok?
    ensures var d := LoginData(cachedLogin, login).value;
      var r := GrowPhotos(email, password, cachedLogin, login, cachedPhotos, fetched);
      r.Crash? <==> "token" !in d || Babies(d).Err?
                    || (Truthy(Babies(d).value)
                        && (FirstBabyId(Babies(d).value).Err? || (cachedPhotos.None? && fetched.Err?)))
  {
  }

  /** A login without a token: the data endpoint still answers when there is no baby,
      the photo endpoint fails, because it reads the token first. */
  lemma TokenReadOrder(email: string, password: string, loginData: Object, cachedGrow: Option<Object>,
                       fetched: GrowFetches, cachedPhotos: Option<seq<Value>>, photos: Result<Value>)
    requires email != "" && password != "" && loginData != map[]
    requires "token" !in loginData && "payload" !in loginData
    ensures GrowData(Some(email), Some(password), Some(loginData), Err(""), cachedGrow, fetched).Body?
    ensures GrowPhotos(Some(email), Some(password), Some(loginData), Err(""), cachedPhotos, photos)
         == Crash("KeyError: 'token'")
  {
  }

  // ---- health ----

  /** `health`: the credentials count as configured only when both are non-blank once
      stripped. */
  function Health(redisStatus: string, email: Option<string>, password: Option<string>): (o: Object)
    ensures o.Keys == {"status", "redis", "hatch_configured"}
    ensures o["status"] == Str("ok") && o["redis"] == Str(redisStatus)
    ensures o["hatch_configured"] == Bool(Strings.Strip(if email.Some? then email.value else "") != ""
                                          && Strings.Strip(if password.Some? then password.value else "") != "")
  {
    var configured := Strings.Strip(if email.Some? then email.value else "") != ""
                      && Strings.Strip(if password.Some? then password.value else "") != "";
    map["status" := Str("ok"), "redis" := Str(redisStatus), "hatch_configured" := Bool(configured)]
  }

  /** Whenever health reports the credentials configured, the device helpers accept them. */
  lemma HealthAgreesWithCredentials(redisStatus: string, email: Option<string>, password: Option<string>)
    ensures Health(redisStatus, email, password)["hatch_configured"] == Bool(true) ==>
      Devices.Credentials(email, password).Returned?
  {
  }

  /** The converse fails: a blank value is accepted by the device helpers, yet health
      does not count it as configured. */
  lemma BlankCredentialsDisagree(redisStatus: string)
    ensures Devices.Credentials(Some(" "), Some(" ")).Returned?
    ensures Health(redisStatus, Some(" "), Some(" "))["hatch_configured"] == Bool(false)
  {
    var blank := " ";
    assert Strings.IsSpace(blank[0]);
    Strings.StripAllSpace(blank);
  }

  // ---- device endpoints ----

  const NotFound: string := "Device not found"
  const VolumeRange: string := "volume must be between 0 and 1"

  /** An exception escaping a device helper: ValueError becomes 503 with its text, any
      other exception is not caught. */
  function ErrorResponse(e: Devices.Raise): Response
  {
    match e
    case ValueError(m) => HttpError(503, m)
    case OtherError(m) => Crash(m)
  }

  /** `list_devices`. */
  method ListDevices(email: Option<string>, password: Option<string>, fetch: Devices.Fetch) returns (r: Response)
    ensures Devices.Missing(email) || Devices.Missing(password) ==> r == HttpError(503, Devices.CredentialsMessage)
    ensures !Devices.Missing(email) && !Devices.Missing(password) && !fetch.Listed? ==>
      r == ErrorResponse(Devices.ListingError(fetch))
    ensures !Devices.Missing(email) && !Devices.Missing(password) && fetch.Listed? ==>
      r.Body? && r.fields.Keys == {"devices"} && r.fields["devices"].List?
      && |r.fields["devices"].items| == |fetch.devices|
      && forall i :: 0 <= i < |fetch.devices| ==>
           r.fields["devices"].items[i] == Dict(Devices.DeviceToDict(fetch.devices[i]))
  {
    var listed := Devices.GetDevices(email, password, fetch);
    if listed.Raised? {
      return ErrorResponse(listed.error);
    }
    var items := seq(|listed.value|, i requires 0 <= i < |listed.value| => Dict(listed.value[i]));
    r := Body(map["devices" := List(items)]);
  }

  /** `device_detail`: 404 when no device has the id. */
  method DeviceDetail(email: Option<string>, password: Option<string>, fetch: Devices.Fetch, id: string)
    returns (r: Response)
    ensures Devices.Missing(email) || Devices.Missing(password) ==> r == HttpError(503, Devices.CredentialsMessage)
    ensures !Devices.Missing(email) && !Devices.Missing(password) && !fetch.Listed? ==>
      r == ErrorResponse(Devices.ListingError(fetch))
    ensures !Devices.Missing(email) && !Devices.Missing(password) && fetch.Listed? ==>
      match Devices.FirstTarget(fetch.devices, id, Devices.AnyDevice)
      case None => r == HttpError(404, NotFound)
      case Some(i) => r == Body(Devices.DeviceToDict(fetch.devices[i]))
  {
    var found := Devices.GetDeviceById(email, password, fetch, id);
    r := match found
      case Raised(e) => ErrorResponse(e)
      case Returned(None) => HttpError(404, NotFound)
      case Returned(Some(d)) => Body(d);
  }

  /** `device_set_volume`: an out-of-range level is refused with 400 before any device
      is contacted; otherwise 404 when no volume-capable device has the id. The
      library's own errors are not caught here. */
  method DeviceSetVolume(email: Option<string>, password: Option<string>, fetch: Devices.Fetch, id: string,
                         level: real)
    returns (r: Response, sent: Option<Devices.Command>)
    ensures r == HttpError(400, VolumeRange) <==> !(0.0 <= level <= 1.0)
    ensures !(0.0 <= level <= 1.0) ==> sent == None
    ensures 0.0 <= level <= 1.0 ==>
      (r == HttpError(503, Devices.CredentialsMessage) <==> Devices.Missing(email) || Devices.Missing(password))
    ensures 0.0 <= level <= 1.0 && !Devices.Missing(email) && !Devices.Missing(password) ==>
      if !fetch.Listed? then r == Crash(fetch.msg) && sent == None
      else match Devices.FirstTarget(fetch.devices, id, Devices.VolumeControl)
        case None => r == HttpError(404, NotFound) && sent == None
        case Some(i) => r == Body(Devices.DeviceToDict(fetch.devices[i])) && sent == Some(Devices.VolumeTo(i, level))
  {
    if !(0.0 <= level <= 1.0) {
      return HttpError(400, VolumeRange), None;
    }
    var result;
    result, sent := Devices.SetVolume(email, password, fetch, id, level);
    r := match result
      case Raised(e) => ErrorResponse(e)
      case Returned(None) => HttpError(404, NotFound)
      case Returned(Some(d)) => Body(d);
  }

  /** How `device_set_audio_track` answers a helper outcome: a ValueError whose text
      mentions an unknown audio track is the caller's fault (400), any other ValueError
      is 503. */
  function TrackResponse(result: Devices.Outcome<Option<Object>>): (r: Response)
    ensures r.HttpError? && r.status == 400 <==>
      result.Raised? && result.error.ValueError? && Strings.Contains(result.error.msg, Devices.UnknownTrackPrefix)
    ensures r.HttpError? && r.status == 503 <==>
      result.Raised? && result.error.ValueError? && !Strings.Contains(result.error.msg, Devices.UnknownTrackPrefix)
    ensures r == HttpError(404, NotFound) <==> result == Devices.Returned(None)
    ensures r.HttpError? && r.status != 404 ==> result.Raised? && r.detail == result.error.msg
    ensures result.Raised? && result.error.OtherError? ==> r == Crash(result.error.msg)
    ensures result.Returned? && result.value.Some? ==> r == Body(result.value.value)
  {
    match result
    case Raised(ValueError(m)) =>
      if Strings.Contains(m, Devices.UnknownTrackPrefix) then HttpError(400, m) else HttpError(503, m)
    case Raised(OtherError(m)) => Crash(m)
    case Returned(None) => HttpError(404, NotFound)
    case Returned(Some(d)) => Body(d)
  }

  /** The messages the track setter can raise as ValueError: the unknown-track one
      contains the phrase, the credentials one does not. */
  lemma TrackMessages(name: string)
    ensures Strings.Contains(Devices.UnknownTrackMessage(name), Devices.UnknownTrackPrefix)
    ensures !Strings.Contains(Devices.CredentialsMessage, Devices.UnknownTrackPrefix)
  {
    var m := Devices.UnknownTrackMessage(name);
    assert Devices.UnknownTrackPrefix <= m;
    assert 'U' !in "Set HATCH_EMAIL" && 'U' !in " and HATCH_PASSWORD";
    assert 'U' !in " in .env" && 'U' !in " or environment";
    Strings.ContainsNeedsFirst(Devices.CredentialsMessage, Devices.UnknownTrackPrefix);
  }

  /** `device_set_audio_track`: 400 exactly when the addressed device exists and does
      not know the track, 404 when no track-capable device has the id, 503 exactly when
      credentials are missing. */
  method DeviceSetAudioTrack(email: Option<string>, password: Option<string>, fetch: Devices.Fetch,
                             lib: Devices.Library, id: string, name: string)
    returns (r: Response, sent: Option<Devices.Command>)
    ensures r.HttpError? && r.status == 503 <==> Devices.Missing(email) || Devices.Missing(password)
    ensures r.HttpError? && r.status == 400 <==>
      !Devices.Missing(email) && !Devices.Missing(password) && fetch.Listed?
      && match Devices.FirstTarget(fetch.devices, id, Devices.TrackControl)
         case None => false
         case Some(i) => Devices.Resolution(fetch.devices[i], name, lib).None?
    ensures r == HttpError(404, NotFound) <==>
      !Devices.Missing(email) && !Devices.Missing(password) && fetch.Listed?
      && Devices.FirstTarget(fetch.devices, id, Devices.TrackControl).None?
    ensures sent.Some? ==> r.Body?
    ensures Devices.Missing(email) || Devices.Missing(password) ==>
      r == HttpError(503, Devices.CredentialsMessage) && sent == None
    ensures !Devices.Missing(email) && !Devices.Missing(password) ==>
      if !fetch.Listed? then r == Crash(fetch.msg) && sent == None
      else match Devices.FirstTarget(fetch.devices, id, Devices.TrackControl)
        case None => r == HttpError(404, NotFound) && sent == None
        case Some(i) =>
          match Devices.Resolution(fetch.devices[i], name, lib)
          case None => r == HttpError(400, Devices.UnknownTrackMessage(name)) && sent == None
          case Some(t) => r == Body(Devices.DeviceToDict(fetch.devices[i])) && sent == Some(Devices.TrackTo(i, t))
  {
    var result;
    result, sent := Devices.SetAudioTrack(email, password, fetch, lib, id, name);
    TrackMessages(name);
    r := TrackResponse(result);
  }
}
