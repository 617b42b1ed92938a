/** The request handlers of pkg/api/api.go: the bearer-header parser, the
    list-filter builder, the upload record, and the fixed order of checks each
    handler makes before it answers. The validator and the storage handler are
    collaborators whose answers are inputs; each handler is a function from
    those answers to the calls it makes and the response it writes. */
module Api {
  import opened Outcomes
  import opened Models
  import opened GoLib

  const StatusOK: nat := 200
  const StatusBadRequest: nat := 400
  const StatusUnauthorized: nat := 401
  const StatusInternalServerError: nat := 500

  const NoHeaderError := "no authorization header found"
  const HeaderFormatError := "authorization header must be in format 'Bearer' <token>"
  const BearerPrefix := "Bearer "

  const HealthUpMessage := "API is running and connected to database"
  const HealthDownMessage := "API is running but unable to connect to database"
  const UploadedMessage := "File uploaded successfully"
  const DeletedMessage := "File successfully deleted"
  const UpdatedMessage := "File updated successfully"

  /** The query parameter converted to an integer. */
  const SizeParam := "size"

  // ---------------------------------------------------------------------
  // getAuthToken

  /** getAuthToken: the token of an `Authorization` header of the form
      "Bearer <token>". The `Bearer ` prefix is only checked on headers of at
      least seven characters; the header must then split on single spaces into
      exactly two pieces, and the token is the second. */
  function GetAuthToken(header: string): (r: Result<string, string>)
    ensures header == "" ==> r == Err(NoHeaderError)
    ensures header != "" && r.Err? ==> r == Err(HeaderFormatError)
    ensures r.Ok? <==>
      header != "" && (|header| < 7 || header[..7] == BearerPrefix) && Count(header, ' ') == 1
    ensures r.Ok? ==>
      && ' ' !in r.value
      && |r.value| < |header|
      && header[|header| - |r.value|..] == r.value
      && header[|header| - |r.value| - 1] == ' '
      && ' ' !in header[..|header| - |r.value| - 1]
  {
    if header == "" then Err(NoHeaderError)
    else if (|header| >= 7 && header[..7] != BearerPrefix) || |Split(header, ' ')| != 2 then
      Err(HeaderFormatError)
    else
      var parts := Split(header, ' ');
      JoinSplit(header, ' ');
      assert header == parts[0] + [' '] + parts[1] by {
        assert Join(parts[1..], ' ') == parts[1];
      }
      assert header[..|parts[0]|] == parts[0];
      Ok(parts[1])
  }

  /** Every space-free token, the empty one included, comes back out of
      "Bearer <token>". */
  lemma GetAuthTokenOfBearer(token: string)
    requires ' ' !in token
    ensures GetAuthToken(BearerPrefix + token) == Ok(token)
  {
    var header := BearerPrefix + token;
    assert header == "Bearer" + [' '] + token;
    assert header[..7] == BearerPrefix;
    SplitAfterHead("Bearer", ' ', token);
    SplitWithoutSeparator(token, ' ');
  }

  /** A header shorter than seven characters skips the prefix check: any
      two space-separated words are accepted. */
  lemma ShortHeaderSkipsPrefixCheck()
    ensures GetAuthToken("a b") == Ok("b")
  {
    SplitAfterHead("a", ' ', "b");
    SplitWithoutSeparator("b", ' ');
  }

  /** A doubled space makes an empty middle piece, so it is rejected even
      behind a correct prefix. */
  lemma DoubledSpaceRejected()
    ensures GetAuthToken("Bearer  x") == Err(HeaderFormatError)
  {
    assert "Bearer  x" == "Bearer" + [' '] + " x";
    SplitAfterHead("Bearer", ' ', " x");
    assert " x" == "" + [' '] + "x";
    SplitAfterHead("", ' ', "x");
    SplitWithoutSeparator("x", ' ');
  }

  /** A second space makes a third piece, so a token with a space in it is
      rejected. */
  lemma SpaceInTokenRejected()
    ensures GetAuthToken("Bearer x y") == Err(HeaderFormatError)
  {
    assert "Bearer x y" == "Bearer" + [' '] + "x y";
    SplitAfterHead("Bearer", ' ', "x y");
    assert "x y" == "x" + [' '] + "y";
    SplitAfterHead("x", ' ', "y");
    SplitWithoutSeparator("y", ' ');
  }

  // ---------------------------------------------------------------------
  // The list filter of getFiles

  /** What the filter holds for query key `key` whose first value is
      `first`: `size` as an integer when Atoi accepts it, and otherwise
      nothing; every other key as its string value. */
  function FilterEntry(key: string, first: string): Option<Value> {
    if key == SizeParam then
      match Atoi(first)
      case Some(v) => Some(VInt(v))
      case None => None
    else Some(VString(first))
  }

  /** Every key of a parsed URL query has at least one value. */
  predicate QueryParams(params: map<string, seq<string>>) {
    forall key :: key in params ==> params[key] != []
  }

  /** The filter getFiles passes to the store. */
  function QueryFilter(params: map<string, seq<string>>): map<string, Value>
    requires QueryParams(params)
  {
    map key | key in params && FilterEntry(key, params[key][0]).Some? :: FilterEntry(key, params[key][0]).value
  }

  /** The filter adds no keys; it keeps every key but `size` with its first
      value as a string, and holds `size` exactly when Atoi accepts its first
      value, as that integer. */
  lemma QueryFilterSpec(params: map<string, seq<string>>)
    requires QueryParams(params)
    ensures var query := QueryFilter(params);
      && query.Keys <= params.Keys
      && (forall key :: key in params && key != SizeParam ==>
            key in query && query[key] == VString(params[key][0]))
      && (SizeParam in query <==> SizeParam in params && Atoi(params[SizeParam][0]).Some?)
      && (SizeParam in query ==> query[SizeParam] == VInt(Atoi(params[SizeParam][0]).value))
  {
  }

  /** The loop of getFiles: visits the query keys in any order, keeps each
      key's first value, and converts `size` or skips it. */
  method BuildFilter(params: map<string, seq<string>>) returns (query: map<string, Value>)
    requires QueryParams(params)
    ensures query == QueryFilter(params)
  {
    query := map[];
    var pending := params.Keys;
    while pending != {}
      invariant pending <= params.Keys
      invariant forall key :: key in query <==>
        key in params && key !in pending && FilterEntry(key, params[key][0]).Some?
      invariant forall key :: key in query ==> query[key] == FilterEntry(key, params[key][0]).value
      decreases pending
    {
      var key :| key in pending;
      pending := pending - {key};
      var val := params[key];
      if key == SizeParam {
        var v := Atoi(val[0]);
        if v.None? {
          continue;
        }
        query := query[key := VInt(v.value)];
        continue;
      }
      query := query[key := VString(val[0])];
    }
    assert query.Keys == QueryFilter(params).Keys;
  }

  /** The test queries: `size=1234&test=test` keeps both keys, `size=test`
      gives an empty filter. */
  lemma FilterOfTestQueries()
    ensures QueryFilter(map["size" := ["1234"], "test" := ["test"]])
         == map["size" := VInt(1234), "test" := VString("test")]
    ensures QueryFilter(map["size" := ["test"]]) == map[]
  {
    assert DecimalValue("1234") == 1234 by {
      assert "1234"[..3] == "123" && "123"[..2] == "12" && "12"[..1] == "1";
    }
    assert !IsDigit("test"[0]);
  }

  // ---------------------------------------------------------------------
  // The upload record

  /** The record uploadFile builds from the uploaded part: its file name,
      the extension of that name, the part's size, the time given, not
      hidden, and no blob id yet. */
  function NewUploadRequest(filename: string, size: Int64, now: Time): FileRequest {
    FileRequest(
      name := filename,
      timestamp := now,
      extension := Ext(filename),
      size := size,
      fileId := NilObjectId,
      hidden := false)
  }

  /** The upload record's extension is the suffix of the file name from the
      last `.` of its final element, or "" when there is none; the record is
      not hidden and carries no blob id. */
  lemma UploadRequestFields(filename: string, size: Int64, now: Time)
    ensures var r := NewUploadRequest(filename, size, now);
      && r.name == filename && r.size == size && r.timestamp == now
      && (r.extension == [] <==> '.' !in LastElement(filename))
      && (r.extension != [] ==> r.extension[0] == '.' && '.' !in r.extension[1..])
      && filename[|filename| - |r.extension|..] == r.extension
      && !r.hidden && r.fileId == NilObjectId
  {
    ExtSpec(filename);
  }

  /** The file of the upload tests, "test.png", gets the extension ".png". */
  lemma UploadRequestOfTestPng(now: Time)
    ensures NewUploadRequest("test.png", 4, now).extension == ".png"
  {
    assert DotIndex("test.png", 8) == 4;
  }

  // ---------------------------------------------------------------------
  // Responses and collaborator calls

  /** A response body. `ErrorJson` is respondWithError's `{"error": ...}`
      object; respondWithSuccess JSON-encodes its argument as it is, so a
      success message is a bare JSON string, not an object. */
  datatype Body =
    | NoBody
    | ErrorJson(error: string)
    | JsonString(message: string)
    | FilesJson(files: seq<FileResponse>)
    | RawBytes(data: Bytes)

  datatype Response = Response(status: nat, body: Body)

  /** respondWithError: the status, and `{"error": message}` as the body
      unless the message is empty. */
  function RespondWithError(code: nat, message: string): (r: Response)
    ensures r.status == code
    ensures r.body == NoBody <==> message == ""
    ensures r.body != NoBody ==> r.body == ErrorJson(message)
  {
    Response(code, if message == "" then NoBody else ErrorJson(message))
  }

  /** A call into a collaborator: the token validator or the storage handler. */
  datatype Call =
    | Validate(token: string)
    | DbPing
    | DbUploadFile(request: FileRequest, data: Bytes)
    | DbGetFile(fileId: ObjectId)
    | DbDeleteFile(fileId: ObjectId)
    | DbUpdateFileInfo(fileId: ObjectId, update: map<string, Value>)
    | DbGetFiles(query: map<string, Value>)

  /** What a handler does for one request: the calls it makes, in order, and
      the response it writes. */
  datatype Exchange = Exchange(calls: seq<Call>, response: Response)

  /** The token validator: None accepts the token, Some(message) rejects it. */
  type Validator = string -> Option<string>

  // ---------------------------------------------------------------------
  // The handlers

  /** The two checks every authenticated handler starts with: the header
      (400, validator not called), then the validator (401). */
  function Authorize(header: string, validate: Validator): Result<string, Exchange> {
    match GetAuthToken(header)
    case Err(message) => Err(Exchange([], RespondWithError(StatusBadRequest, message)))
    case Ok(token) =>
      match validate(token)
      case Some(message) => Err(Exchange([Validate(token)], RespondWithError(StatusUnauthorized, message)))
      case None => Ok(token)
  }

  /** checkHealth: no token; a ping error gives 500, success 200. */
  function CheckHealth(pingError: Option<string>): Exchange {
    if pingError.Some? then Exchange([DbPing], RespondWithError(StatusInternalServerError, HealthDownMessage))
    else Exchange([DbPing], Response(StatusOK, JsonString(HealthUpMessage)))
  }

  /** The outcome of reading the multipart upload: ParseForm failing,
      FormFile finding no `file` part, copying its bytes failing, or the
      part's file name, size and bytes. */
  datatype Form =
    | ParseFormFailed(error: string)
    | NoFormFile(error: string)
    | ReadFailed(error: string)
    | FormFile(filename: string, size: Int64, data: Bytes)

  /** uploadFile */
  function UploadFile(header: string, validate: Validator, form: Form, now: Time,
                      uploadError: Option<string>): Exchange
  {
    match Authorize(header, validate)
    case Err(early) => early
    case Ok(token) =>
      var validated := [Validate(token)];
      match form
      case ParseFormFailed(message) => Exchange(validated, RespondWithError(StatusBadRequest, message))
      case NoFormFile(message) => Exchange(validated, RespondWithError(StatusBadRequest, message))
      case ReadFailed(message) => Exchange(validated, RespondWithError(StatusBadRequest, message))
      case FormFile(filename, size, data) =>
        var calls := validated + [DbUploadFile(NewUploadRequest(filename, size, now), data)];
        if uploadError.Some? then Exchange(calls, RespondWithError(StatusInternalServerError, uploadError.value))
        else Exchange(calls, Response(StatusOK, JsonString(UploadedMessage)))
  }

  /** downloadFile: on success the body is the raw bytes and the status is
      the default 200. */
  function DownloadFile(header: string, validate: Validator, id: Result<ObjectId, string>,
                        fetched: Result<Bytes, string>, copyError: Option<string>): Exchange
  {
    match Authorize(header, validate)
    case Err(early) => early
    case Ok(token) =>
      var validated := [Validate(token)];
      match id
      case Err(message) => Exchange(validated, RespondWithError(StatusBadRequest, message))
      case Ok(fileId) =>
        var calls := validated + [DbGetFile(fileId)];
        match fetched
        case Err(message) => Exchange(calls, RespondWithError(StatusInternalServerError, message))
        case Ok(data) =>
          if copyError.Some? then Exchange(calls, RespondWithError(StatusInternalServerError, copyError.value))
          else Exchange(calls, Response(StatusOK, RawBytes(data)))
  }

  /** deleteFile */
  function DeleteFile(header: string, validate: Validator, id: Result<ObjectId, string>,
                      deleteError: Option<string>): Exchange
  {
    match Authorize(header, validate)
    case Err(early) => early
    case Ok(token) =>
      var validated := [Validate(token)];
      match id
      case Err(message) => Exchange(validated, RespondWithError(StatusBadRequest, message))
      case Ok(fileId) =>
        var calls := validated + [DbDeleteFile(fileId)];
        if deleteError.Some? then Exchange(calls, RespondWithError(StatusInternalServerError, deleteError.value))
        else Exchange(calls, Response(StatusOK, JsonString(DeletedMessage)))
  }

  /** updateFileInfo: the decoded body is passed to the store as it is. */
  function UpdateFileInfo(header: string, validate: Validator, id: Result<ObjectId, string>,
                          body: Result<map<string, Value>, string>, updateError: Option<string>): Exchange
  {
    match Authorize(header, validate)
    case Err(early) => early
    case Ok(token) =>
      var validated := [Validate(token)];
      match id
      case Err(message) => Exchange(validated, RespondWithError(StatusBadRequest, message))
      case Ok(fileId) =>
        match body
        case Err(message) => Exchange(validated, RespondWithError(StatusBadRequest, message))
        case Ok(update) =>
          var calls := validated + [DbUpdateFileInfo(fileId, update)];
          if updateError.Some? then Exchange(calls, RespondWithError(StatusInternalServerError, updateError.value))
          else Exchange(calls, Response(StatusOK, JsonString(UpdatedMessage)))
  }

  /** getFiles */
  function GetFiles(header: string, validate: Validator, params: map<string, seq<string>>,
                    listed: Result<seq<FileResponse>, string>): Exchange
    requires QueryParams(params)
  {
    match Authorize(header, validate)
    case Err(early) => early
    case Ok(token) =>
      var calls := [Validate(token), DbGetFiles(QueryFilter(params))];
      match listed
      case Err(message) => Exchange(calls, RespondWithError(StatusInternalServerError, message))
      case Ok(results) => Exchange(calls, Response(StatusOK, FilesJson(results)))
  }

  // ---------------------------------------------------------------------
  // All routes, and the order of their checks

  /** A request to one of the six routes, with what the collaborators and
      the request decoding answer for it. */
  datatype Route =
    | Health(pingError: Option<string>)
    | Upload(form: Form, now: Time, uploadError: Option<string>)
    | Download(id: Result<ObjectId, string>, fetched: Result<Bytes, string>, copyError: Option<string>)
    | Delete(id: Result<ObjectId, string>, deleteError: Option<string>)
    | Update(id: Result<ObjectId, string>, body: Result<map<string, Value>, string>, updateError: Option<string>)
    | List(params: map<string, seq<string>>, listed: Result<seq<FileResponse>, string>)

  predicate WellFormed(route: Route) {
    route.List? ==> QueryParams(route.params)
  }

  /** The router: each route to its handler. */
  function Serve(header: string, validate: Validator, route: Route): Exchange
    requires WellFormed(route)
  {
    match route
    case Health(pingError) => CheckHealth(pingError)
    case Upload(form, now, uploadError) => UploadFile(header, validate, form, now, uploadError)
    case Download(id, fetched, copyError) => DownloadFile(header, validate, id, fetched, copyError)
    case Delete(id, deleteError) => DeleteFile(header, validate, id, deleteError)
    case Update(id, body, updateError) => UpdateFileInfo(header, validate, id, body, updateError)
    case List(params, listed) => GetFiles(header, validate, params, listed)
  }

  /** The checks a handler can fail, named by what is checked. */
  datatype Check = HeaderCheck | TokenCheck | IdCheck | FormCheck | BodyCheck | StoreCheck | WriteCheck

  /** The checks each route makes, in the order it makes them. */
  function ChecksOf(route: Route): seq<Check> {
    match route
    case Health(_) => [StoreCheck]
    case Upload(_, _, _) => [HeaderCheck, TokenCheck, FormCheck, StoreCheck]
    case Download(_, _, _) => [HeaderCheck, TokenCheck, IdCheck, StoreCheck, WriteCheck]
    case Delete(_, _) => [HeaderCheck, TokenCheck, IdCheck, StoreCheck]
    case Update(_, _, _) => [HeaderCheck, TokenCheck, IdCheck, BodyCheck, StoreCheck]
    case List(_, _) => [HeaderCheck, TokenCheck, StoreCheck]
  }

  /** Whether the store answered the route's store call without error. */
  predicate StoreSucceeds(route: Route) {
    match route
    case Health(pingError) => pingError.None?
    case Upload(_, _, uploadError) => uploadError.None?
    case Download(_, fetched, _) => fetched.Ok?
    case Delete(_, deleteError) => deleteError.None?
    case Update(_, _, updateError) => updateError.None?
    case List(_, listed) => listed.Ok?
  }

  /** Whether `check` passes, reading only the answer it depends on. */
  predicate Passes(check: Check, header: string, validate: Validator, route: Route) {
    match check
    case HeaderCheck => GetAuthToken(header).Ok?
    case TokenCheck => GetAuthToken(header).Ok? && validate(GetAuthToken(header).value).None?
    case IdCheck => (route.Download? || route.Delete? || route.Update?) ==> route.id.Ok?
    case FormCheck => route.Upload? ==> route.form.FormFile?
    case BodyCheck => route.Update? ==> route.body.Ok?
    case StoreCheck => StoreSucceeds(route)
    case WriteCheck => route.Download? ==> route.copyError.None?
  }

  /** The first of the route's checks from position `n` on that fails, if any. */
  function FirstFailureFrom(header: string, validate: Validator, route: Route, n: nat): Option<Check>
    decreases |ChecksOf(route)| - n
  {
    if n >= |ChecksOf(route)| then None
    else if !Passes(ChecksOf(route)[n], header, validate, route) then Some(ChecksOf(route)[n])
    else FirstFailureFrom(header, validate, route, n + 1)
  }

  /** The first of the route's checks that fails, if any. */
  function FirstFailure(header: string, validate: Validator, route: Route): Option<Check> {
    FirstFailureFrom(header, validate, route, 0)
  }

  /** The status a failed check answers with: 401 for a rejected token, 500
      for a store or write failure, 400 for any malformed input. */
  function StatusOnFailure(check: Check): nat {
    match check
    case TokenCheck => StatusUnauthorized
    case StoreCheck => StatusInternalServerError
    case WriteCheck => StatusInternalServerError
    case _ => StatusBadRequest
  }

  /** The store call a route makes once its earlier checks have passed. */
  function StoreCall(route: Route): seq<Call>
    requires WellFormed(route)
  {
    match route
    case Health(_) => [DbPing]
    case Upload(form, now, _) =>
      if form.FormFile? then [DbUploadFile(NewUploadRequest(form.filename, form.size, now), form.data)] else []
    case Download(id, _, _) => if id.Ok? then [DbGetFile(id.value)] else []
    case Delete(id, _) => if id.Ok? then [DbDeleteFile(id.value)] else []
    case Update(id, body, _) => if id.Ok? && body.Ok? then [DbUpdateFileInfo(id.value, body.value)] else []
    case List(params, _) => [DbGetFiles(QueryFilter(params))]
  }

  /** The collaborator call a check makes, if it makes one. */
  function CallOf(check: Check, header: string, route: Route): seq<Call>
    requires WellFormed(route)
  {
    match check
    case TokenCheck => if GetAuthToken(header).Ok? then [Validate(GetAuthToken(header).value)] else []
    case StoreCheck => StoreCall(route)
    case _ => []
  }

  /** The calls made by the route's checks from position `n` on, up to and
      including the first that fails. */
  function CallsFrom(header: string, validate: Validator, route: Route, n: nat): seq<Call>
    requires WellFormed(route)
    decreases |ChecksOf(route)| - n
  {
    if n >= |ChecksOf(route)| then []
    else
      CallOf(ChecksOf(route)[n], header, route)
        + (if Passes(ChecksOf(route)[n], header, validate, route) then CallsFrom(header, validate, route, n + 1) else [])
  }

  /** The calls the route's checks make up to and including the first that
      fails. */
  function CallsUntilFailure(header: string, validate: Validator, route: Route): seq<Call>
    requires WellFormed(route)
  {
    CallsFrom(header, validate, route, 0)
  }

  /** One step of FirstFailureFrom and CallsFrom. */
  lemma UnfoldAt(header: string, validate: Validator, route: Route, n: nat)
    requires WellFormed(route)
    ensures FirstFailureFrom(header, validate, route, n)
         == if n >= |ChecksOf(route)| then None
            else if !Passes(ChecksOf(route)[n], header, validate, route) then Some(ChecksOf(route)[n])
            else FirstFailureFrom(header, validate, route, n + 1)
    ensures CallsFrom(header, validate, route, n)
         == if n >= |ChecksOf(route)| then []
            else (CallOf(ChecksOf(route)[n], header, route)
              + (if Passes(ChecksOf(route)[n], header, validate, route) then CallsFrom(header, validate, route, n + 1) else []))
  {
  }

  /** What ServeFollowsCheckOrder states of one route. */
  predicate CheckOrder(header: string, validate: Validator, route: Route)
    requires WellFormed(route)
  {
    var x := Serve(header, validate, route);
    var failed := FirstFailure(header, validate, route);
    && x.calls == CallsUntilFailure(header, validate, route)
    && x.response.status == (if failed.None? then StatusOK else StatusOnFailure(failed.value))
  }

  /** The header parses and the validator accepts its token. */
  predicate Admitted(header: string, validate: Validator) {
    GetAuthToken(header).Ok? && validate(GetAuthToken(header).value).None?
  }

  /** checkHealth: the ping is its only check. */
  lemma HealthCheckOrder(header: string, validate: Validator, route: Route)
    requires route.Health?
    ensures CheckOrder(header, validate, route)
  {
    UnfoldAt(header, validate, route, 0);
    UnfoldAt(header, validate, route, 1);
  }

  /** Every authenticated route stops at a bad header or a rejected token. */
  lemma RefusedCheckOrder(header: string, validate: Validator, route: Route)
    requires WellFormed(route) && !route.Health? && !Admitted(header, validate)
    ensures CheckOrder(header, validate, route)
  {
    UnfoldAt(header, validate, route, 0);
    UnfoldAt(header, validate, route, 1);
  }

  /** An admitted request passes the header and token checks, calling only
      the validator, and the rest of the reference starts at the third check. */
  lemma AdmittedPrefix(header: string, validate: Validator, route: Route)
    requires WellFormed(route) && !route.Health? && Admitted(header, validate)
    ensures FirstFailure(header, validate, route) == FirstFailureFrom(header, validate, route, 2)
    ensures CallsUntilFailure(header, validate, route)
         == [Validate(GetAuthToken(header).value)] + CallsFrom(header, validate, route, 2)
  {
    var checks := ChecksOf(route);
    assert |checks| >= 3 && checks[0] == HeaderCheck && checks[1] == TokenCheck;
    assert Passes(HeaderCheck, header, validate, route) && Passes(TokenCheck, header, validate, route);
    assert CallOf(HeaderCheck, header, route) == [];
    assert CallOf(TokenCheck, header, route) == [Validate(GetAuthToken(header).value)];
    UnfoldAt(header, validate, route, 0);
    UnfoldAt(header, validate, route, 1);
  }

  /** The reference for uploadFile after the token: the form, then the store. */
  lemma UploadTail(header: string, validate: Validator, route: Route)
    requires WellFormed(route) && route.Upload?
    ensures FirstFailureFrom(header, validate, route, 2)
         == if !route.form.FormFile? then Some(FormCheck)
            else if route.uploadError.Some? then Some(StoreCheck) else None
    ensures CallsFrom(header, validate, route, 2) == StoreCall(route)
  {
    UnfoldAt(header, validate, route, 2);
    UnfoldAt(header, validate, route, 3);
    UnfoldAt(header, validate, route, 4);
  }

  /** uploadFile: after the token, the form, then the store. */
  lemma UploadCheckOrder(header: string, validate: Validator, route: Route)
    requires WellFormed(route) && route.Upload? && Admitted(header, validate)
    ensures CheckOrder(header, validate, route)
  {
    AdmittedPrefix(header, validate, route);
    UploadTail(header, validate, route);
  }

  /** The reference for downloadFile after the token: the id, the store,
      then the write. */
  lemma DownloadTail(header: string, validate: Validator, route: Route)
    requires WellFormed(route) && route.Download?
    ensures FirstFailureFrom(header, validate, route, 2)
         == if route.id.Err? then Some(IdCheck)
            else if route.fetched.Err? then Some(StoreCheck)
            else if route.copyError.Some? then Some(WriteCheck) else None
    ensures CallsFrom(header, validate, route, 2) == StoreCall(route)
  {
    assert ChecksOf(route) == [HeaderCheck, TokenCheck, IdCheck, StoreCheck, WriteCheck];
    assert CallOf(IdCheck, header, route) == [] && CallOf(WriteCheck, header, route) == [];
    assert CallOf(StoreCheck, header, route) == StoreCall(route);
    UnfoldAt(header, validate, route, 5);
    UnfoldAt(header, validate, route, 4);
    UnfoldAt(header, validate, route, 3);
    UnfoldAt(header, validate, route, 2);
  }

  /** downloadFile: after the token, the id, the store, then the write. */
  lemma DownloadCheckOrder(header: string, validate: Validator, route: Route)
    requires WellFormed(route) && route.Download? && Admitted(header, validate)
    ensures CheckOrder(header, validate, route)
  {
    AdmittedPrefix(header, validate, route);
    DownloadTail(header, validate, route);
  }

  /** The reference for deleteFile after the token: the id, then the store. */
  lemma DeleteTail(header: string, validate: Validator, route: Route)
    requires WellFormed(route) && route.Delete?
    ensures FirstFailureFrom(header, validate, route, 2)
         == if route.id.Err? then Some(IdCheck)
            else if route.deleteError.Some? then Some(StoreCheck) else None
    ensures CallsFrom(header, validate, route, 2) == StoreCall(route)
  {
    UnfoldAt(header, validate, route, 2);
    UnfoldAt(header, validate, route, 3);
    UnfoldAt(header, validate, route, 4);
  }

  /** deleteFile: after the token, the id, then the store. */
  lemma DeleteCheckOrder(header: string, validate: Validator, route: Route)
    requires WellFormed(route) && route.Delete? && Admitted(header, validate)
    ensures CheckOrder(header, validate, route)
  {
    AdmittedPrefix(header, validate, route);
    DeleteTail(header, validate, route);
  }

  /** The reference for updateFileInfo after the token: the id, the body,
      then the store. */
  lemma UpdateTail(header: string, validate: Validator, route: Route)
    requires WellFormed(route) && route.Update?
    ensures FirstFailureFrom(header, validate, route, 2)
         == if route.id.Err? then Some(IdCheck)
            else if route.body.Err? then Some(BodyCheck)
            else if route.updateError.Some? then Some(StoreCheck) else None
    ensures CallsFrom(header, validate, route, 2) == StoreCall(route)
  {
    UnfoldAt(header, validate, route, 2);
    UnfoldAt(header, validate, route, 3);
    UnfoldAt(header, validate, route, 4);
    UnfoldAt(header, validate, route, 5);
  }

  /** updateFileInfo: after the token, the id, the body, then the store. */
  lemma UpdateCheckOrder(header: string, validate: Validator, route: Route)
    requires WellFormed(route) && route.Update? && Admitted(header, validate)
    ensures CheckOrder(header, validate, route)
  {
    AdmittedPrefix(header, validate, route);
    UpdateTail(header, validate, route);
  }

  /** The reference for getFiles after the token: the store. */
  lemma ListTail(header: string, validate: Validator, route: Route)
    requires WellFormed(route) && route.List?
    ensures FirstFailureFrom(header, validate, route, 2) == if route.listed.Err? then Some(StoreCheck) else None
    ensures CallsFrom(header, validate, route, 2) == StoreCall(route)
  {
    UnfoldAt(header, validate, route, 2);
    UnfoldAt(header, validate, route, 3);
  }

  /** getFiles: after the token, the store. */
  lemma ListCheckOrder(header: string, validate: Validator, route: Route)
    requires WellFormed(route) && route.List? && Admitted(header, validate)
    ensures CheckOrder(header, validate, route)
  {
    AdmittedPrefix(header, validate, route);
    ListTail(header, validate, route);
  }

  /** Every handler makes its checks in the fixed order of ChecksOf and stops
      at the first that fails: it calls exactly the collaborators of the checks
      up to that one, and answers with that check's status, or 200 when all
      pass. */
  lemma ServeFollowsCheckOrder(header: string, validate: Validator, route: Route)
    requires WellFormed(route)
    ensures var x := Serve(header, validate, route);
      var failed := FirstFailure(header, validate, route);
      && x.calls == CallsUntilFailure(header, validate, route)
      && x.response.status == (if failed.None? then StatusOK else StatusOnFailure(failed.value))
  {
    if !route.Health? && !Admitted(header, validate) {
      RefusedCheckOrder(header, validate, route);
      return;
    }
    match route
    case Health(_) => HealthCheckOrder(header, validate, route);
    case Upload(_, _, _) => UploadCheckOrder(header, validate, route);
    case Download(_, _, _) => DownloadCheckOrder(header, validate, route);
    case Delete(_, _) => DeleteCheckOrder(header, validate, route);
    case Update(_, _, _) => UpdateCheckOrder(header, validate, route);
    case List(_, _) => ListCheckOrder(header, validate, route);
  }

  /** A missing or malformed header answers 400 with getAuthToken's message,
      before the validator or the store is called. */
  lemma MalformedHeaderStopsFirst(header: string, validate: Validator, route: Route)
    requires WellFormed(route) && !route.Health? && GetAuthToken(header).Err?
    ensures Serve(header, validate, route)
         == Exchange([], RespondWithError(StatusBadRequest, GetAuthToken(header).error))
  {
  }

  /** A token the validator rejects answers 401 with the validator's
      message; the store is never called. */
  lemma RejectedTokenStopsSecond(header: string, validate: Validator, route: Route)
    requires WellFormed(route) && !route.Health? && GetAuthToken(header).Ok?
    requires validate(GetAuthToken(header).value).Some?
    ensures var token := GetAuthToken(header).value;
      Serve(header, validate, route)
        == Exchange([Validate(token)], RespondWithError(StatusUnauthorized, validate(token).value))
  {
  }

  /** Whether the request's own inputs are usable: the upload form was
      read, the path id parsed, the update body decoded. */
  predicate InputsValid(route: Route) {
    match route
    case Upload(form, _, _) => form.FormFile?
    case Download(id, _, _) => id.Ok?
    case Delete(id, _) => id.Ok?
    case Update(id, body, _) => id.Ok? && body.Ok?
    case _ => true
  }

  /** The message of the first unusable input. */
  function InputError(route: Route): string
    requires !InputsValid(route)
  {
    match route
    case Upload(form, _, _) => form.error
    case Download(id, _, _) => id.error
    case Delete(id, _) => id.error
    case Update(id, body, _) => if id.Err? then id.error else body.error
  }

  /** Once the token is accepted, an unparseable id, an unreadable upload
      or an undecodable update body answers 400 with its own message,
      without calling the store. */
  lemma BadRequestInputStopsBeforeStore(header: string, validate: Validator, route: Route)
    requires WellFormed(route) && !route.Health? && Admitted(header, validate) && !InputsValid(route)
    ensures Serve(header, validate, route)
         == Exchange([Validate(GetAuthToken(header).value)], RespondWithError(StatusBadRequest, InputError(route)))
  {
  }

  /** The message of a failed store call. */
  function StoreErrorMessage(route: Route): string
    requires !StoreSucceeds(route)
  {
    match route
    case Health(_) => HealthDownMessage
    case Upload(_, _, uploadError) => uploadError.value
    case Download(_, fetched, _) => fetched.error
    case Delete(_, deleteError) => deleteError.value
    case Update(_, _, updateError) => updateError.value
    case List(_, listed) => listed.error
  }

  /** With the token accepted and the inputs usable, the store is called
      exactly once, last, and a store error answers 500 with the store's
      message (the fixed health message for a failed ping). */
  lemma StoreErrorIs500(header: string, validate: Validator, route: Route)
    requires WellFormed(route) && (route.Health? || Admitted(header, validate)) && InputsValid(route)
    requires !StoreSucceeds(route)
    ensures Serve(header, validate, route)
         == Exchange((if route.Health? then [] else [Validate(GetAuthToken(header).value)]) + StoreCall(route),
                     RespondWithError(StatusInternalServerError, StoreErrorMessage(route)))
  {
  }

  /** A handler answers 200 exactly when none of its checks fails. */
  lemma OkExactlyWhenAllChecksPass(header: string, validate: Validator, route: Route)
    requires WellFormed(route)
    ensures Serve(header, validate, route).response.status == StatusOK
        <==> FirstFailure(header, validate, route).None?
  {
    ServeFollowsCheckOrder(header, validate, route);
  }

  /** The body a route answers with when all its checks pass: the fetched
      bytes for a download, the store's results for a listing, and the
      route's fixed message otherwise. */
  function SuccessBody(route: Route): Body
    requires StoreSucceeds(route)
  {
    match route
    case Health(_) => JsonString(HealthUpMessage)
    case Upload(_, _, _) => JsonString(UploadedMessage)
    case Download(_, fetched, _) => RawBytes(fetched.value)
    case Delete(_, _) => JsonString(DeletedMessage)
    case Update(_, _, _) => JsonString(UpdatedMessage)
    case List(_, listed) => FilesJson(listed.value)
  }

  /** A handler whose checks all pass answers 200 with its success body:
      the bytes the store returned, the records it listed, or the route's
      message. */
  lemma SuccessResponse(header: string, validate: Validator, route: Route)
    requires WellFormed(route) && FirstFailure(header, validate, route).None?
    ensures StoreSucceeds(route)
    ensures Serve(header, validate, route).response == Response(StatusOK, SuccessBody(route))
  {
    OkExactlyWhenAllChecksPass(header, validate, route);
    assert Serve(header, validate, route).response.status == StatusOK;
  }

  /** The health check ignores the header and the validator: it pings, and
      answers 500 exactly when the ping fails. */
  lemma HealthNeedsNoToken(header: string, validate: Validator, pingError: Option<string>)
    ensures var x := Serve(header, validate, Health(pingError));
      && x.calls == [DbPing]
      && (x.response.status == StatusInternalServerError <==> pingError.Some?)
      && (x.response.status == StatusOK <==> pingError.None?)
  {
  }
}
