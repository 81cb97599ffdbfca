/**
 * The admin theme API (backend/src/api/admin/theme/route.ts): `GET` and `POST` as functions
 * from a request to a status and a JSON body. The clock reading is the parameter `now`.
 */
module AdminThemeRoute {
  import opened Wrappers
  import opened AdminThemeConfig

  /** A parsed JSON value of a request body. */
  datatype Json =
    | JNull
    | JBool(b: bool)
    | JNum(n: real)
    | JStr(s: string)
    | JArr(elems: seq<Json>)
    | JObj(fields: map<string, Json>)

  /** JavaScript truthiness of a value that may be `undefined` (`None`); arrays and objects are truthy even when empty. */
  predicate Truthy(v: Option<Json>)
  {
    match v
    case None => false
    case Some(JNull) => false
    case Some(JBool(b)) => b
    case Some(JNum(n)) => n != 0.0
    case Some(JStr(s)) => s != ""
    case Some(JArr(_)) => true
    case Some(JObj(_)) => true
  }

  /** `v.key`: a property of an object; anything else has no such property. */
  function Member(v: Json, key: string): Option<Json>
  {
    if v.JObj? && key in v.fields then Some(v.fields[key]) else None
  }

  /** `x || fallback` on an optional JSON value. */
  function OrElse(v: Option<Json>, fallback: Json): Json
  {
    if Truthy(v) then v.value else fallback
  }

  /** `req.query.mode`, `None` when the parameter is absent. */
  datatype GetRequest = GetRequest(mode: Option<string>)

  /** `req.body`, a JSON object. */
  datatype PostRequest = PostRequest(body: map<string, Json>)

  datatype Request = Get(get: GetRequest) | Post(post: PostRequest)

  datatype Preferences = Preferences(userId: Json, mode: Json, colorScheme: Json, updatedAt: string)

  datatype Body =
    | ThemeBody(config: ThemeConfig, variables: map<string, Option<string>>, mode: string, timestamp: string, version: string)
    | UpdatedBody(message: string, preferences: Preferences)
    | MissingFieldsBody(error: string, required: seq<string>)

  datatype Response = Response(status: int, body: Body)

  const Version := "1.0.0"
  const UpdatedMessage := "Theme preferences updated successfully"
  const MissingFieldsError := "Missing required fields"
  const RequiredFields := ["userId", "themePreferences"]

  /** `(req.query.mode as string) || 'light'`. */
  function RequestedMode(q: Option<string>): (mode: string)
    ensures mode != ""
    ensures q.Some? && q.value != "" ==> mode == q.value
    ensures q.None? || q == Some("") ==> mode == "light"
  {
    if q.Some? && q.value != "" then q.value else "light"
  }

  function HandleGet(req: GetRequest, now: string): (res: Response)
    ensures res.status == 200 && res.body.ThemeBody?
    ensures res.body.config == Config && res.body.version == Version && res.body.timestamp == now
    ensures req.mode == None || req.mode == Some("") ==> res.body.mode == "light"
    ensures req.mode.Some? && req.mode.value != "" ==> res.body.mode == req.mode.value
    ensures res.body.variables == GenerateThemeVariables(Some(res.body.mode))
  {
    var mode := RequestedMode(req.mode);
    Response(200, ThemeBody(Config, GenerateThemeVariables(Some(mode)), mode, now, Version))
  }

  function Field(body: map<string, Json>, key: string): Option<Json>
  {
    if key in body then Some(body[key]) else None
  }

  function HandlePost(req: PostRequest, now: string): (res: Response)
    ensures res.status == 400 || res.status == 200
    ensures res.status == 400 <==> !Truthy(Field(req.body, "userId")) || !Truthy(Field(req.body, "themePreferences"))
    ensures res.status == 400 ==> res.body == MissingFieldsBody(MissingFieldsError, RequiredFields)
    ensures res.status == 200 ==>
      var prefs := req.body["themePreferences"];
      && res.body.UpdatedBody?
      && res.body.message == UpdatedMessage
      && res.body.preferences.userId == req.body["userId"]
      && res.body.preferences.mode == (if Truthy(Member(prefs, "mode")) then Member(prefs, "mode").value else JStr("light"))
      && res.body.preferences.colorScheme == (if Truthy(Member(prefs, "colorScheme")) then Member(prefs, "colorScheme").value else JStr("bubblegum"))
      && res.body.preferences.updatedAt == now
  {
    var userId := Field(req.body, "userId");
    var themePreferences := Field(req.body, "themePreferences");
    if !Truthy(userId) || !Truthy(themePreferences) then
      Response(400, MissingFieldsBody(MissingFieldsError, RequiredFields))
    else
      var prefs := themePreferences.value;
      Response(200, UpdatedBody(UpdatedMessage, Preferences(
        userId.value,
        OrElse(Member(prefs, "mode"), JStr("light")),
        OrElse(Member(prefs, "colorScheme"), JStr("bubblegum")),
        now)))
  }

  function Handle(req: Request, now: string): Response
  {
    match req
    case Get(g) => HandleGet(g, now)
    case Post(p) => HandlePost(p, now)
  }

  /**
   * A sequence of requests served one after another, each at its own clock reading. Neither
   * handler keeps anything between requests.
   */
  function HandleAll(reqs: seq<Request>, clock: seq<string>): (out: seq<Response>)
    requires |clock| == |reqs|
    ensures |out| == |reqs|
  {
    if reqs == [] then []
    else [Handle(reqs[0], clock[0])] + HandleAll(reqs[1..], clock[1..])
  }

  /** The i-th response is the answer to the i-th request on its own. */
  lemma {:induction false} HandleAllPointwise(reqs: seq<Request>, clock: seq<string>, i: nat)
    requires |clock| == |reqs| && i < |reqs|
    ensures HandleAll(reqs, clock)[i] == Handle(reqs[i], clock[i])
  {
    if i > 0 {
      HandleAllPointwise(reqs[1..], clock[1..], i - 1);
    }
  }

  /** POST saves nothing: what a GET returns does not depend on any request served before it. */
  lemma GetIgnoresHistory(history: seq<Request>, clock: seq<string>, req: GetRequest, now: string)
    requires |clock| == |history|
    ensures HandleAll(history + [Get(req)], clock + [now])[|history|] == HandleGet(req, now)
  {
    HandleAllPointwise(history + [Get(req)], clock + [now], |history|);
  }

  /**
   * `res.json(...)` on the variables: `JSON.stringify` leaves out every property whose value
   * is `undefined`.
   */
  function WireVariables(vars: map<string, Option<string>>): (wire: map<string, string>)
    ensures wire.Keys == set k | k in vars && vars[k].Some?
    ensures forall k :: k in wire ==> vars[k] == Some(wire[k])
  {
    map k | k in vars && vars[k].Some? :: vars[k].value
  }

  /** For light and dark mode the response carries all eleven variables. */
  lemma KnownModeSendsAllVariables(mode: string)
    requires mode == "light" || mode == "dark"
    ensures WireVariables(HandleGet(GetRequest(Some(mode)), "").body.variables).Keys == VariableKeys
  {
  }

  /**
   * For any other non-empty mode the response keeps the mode string but carries only the
   * four mode-independent variables.
   */
  lemma UnknownModeSendsFixedVariables(mode: string, now: string)
    requires mode != "" && mode != "light" && mode != "dark"
    ensures HandleGet(GetRequest(Some(mode)), now).body.mode == mode
    ensures WireVariables(HandleGet(GetRequest(Some(mode)), now).body.variables).Keys == FixedKeys
  {
    var vars := HandleGet(GetRequest(Some(mode)), now).body.variables;
    UnknownModeLeavesRolesUndefined(mode);
    assert forall k :: k in vars && vars[k].Some? <==> k in FixedKeys;
  }
}
