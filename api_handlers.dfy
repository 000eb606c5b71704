/**
 * The hand-visible generator output for the week 1 API (week1/api_handlers.go), modelled as
 * written: the two receivers' dispatchers, the three handlers, and the three validators, which
 * come from an earlier generator revision (an enum accepts an empty value by falling back to a
 * fixed one, and there is no pending-required flag).
 */
module ApiHandlers {
  import opened Wrappers
  import opened Strings
  import opened Codegen
  import opened Runtime
  import opened Emitted

  datatype ProfileParams = ProfileParams(login: string)
  datatype CreateParams = CreateParams(login: string, name: string, status: string, age: int)
  datatype OtherCreateParams = OtherCreateParams(username: string, name: string, heroClass: string, level: int)

  const StatusValues: seq<string> := ["user", "moderator", "admin"]
  const ClassValues: seq<string> := ["warrior", "sorcerer", "rouge"]

  function BadRequest(msg: string): Option<ApiError>
  {
    Some(ApiError(StatusBadRequest, msg))
  }

  // ----- validators -----

  function ProfileViolation(p: ProfileParams): Option<ApiError>
  {
    if p.login == "" then BadRequest("login must me not empty") else None
  }

  /** Login, Status and Age are checked in that order; an empty Status falls back to "user". */
  function CreateViolation(p: CreateParams): Option<ApiError>
  {
    if p.login == "" then BadRequest("login must me not empty")
    else if |p.login| < 10 then BadRequest("login len must be >= 10")
    else if p.status !in StatusValues && p.status != "" then BadRequest("status must be one of [" + Join(StatusValues, ", ") + "]")
    else if p.age < 0 then BadRequest("age must be >= 0")
    else if p.age > 128 then BadRequest("age must be <= 128")
    else None
  }

  /** Username, Class and Level are checked in that order; an empty Class falls back to "warrior". */
  function OtherCreateViolation(p: OtherCreateParams): Option<ApiError>
  {
    if p.username == "" then BadRequest("username must me not empty")
    else if |p.username| < 3 then BadRequest("username len must be >= 3")
    else if p.heroClass !in ClassValues && p.heroClass != "" then BadRequest("class must be one of [" + Join(ClassValues, ", ") + "]")
    else if p.level < 1 then BadRequest("level must be >= 1")
    else if p.level > 50 then BadRequest("level must be <= 50")
    else None
  }

  lemma JoinStatusValues()
    ensures Join(StatusValues, "|") == "user|moderator|admin"
    ensures Join(StatusValues, ", ") == "user, moderator, admin"
  {
    assert Join(["admin"], "|") == "admin" && Join(["admin"], ", ") == "admin";
    assert Join(["moderator", "admin"], "|") == "moderator" + "|" + "admin";
    assert Join(["moderator", "admin"], ", ") == "moderator" + ", " + "admin";
  }

  /** The enum literal splits into the alternatives the handler lists in its message. */
  lemma SplitStatusValues()
    ensures Split("user|moderator|admin", '|') == StatusValues
    ensures Join(StatusValues, ", ") == "user, moderator, admin"
  {
    JoinStatusValues();
    forall i | 0 <= i < |StatusValues| ensures '|' !in StatusValues[i] {}
    SplitJoin(StatusValues, '|');
  }

  lemma JoinClassValues()
    ensures Join(ClassValues, "|") == "warrior|sorcerer|rouge"
    ensures Join(ClassValues, ", ") == "warrior, sorcerer, rouge"
  {
    assert Join(["rouge"], "|") == "rouge" && Join(["rouge"], ", ") == "rouge";
    assert Join(["sorcerer", "rouge"], "|") == "sorcerer" + "|" + "rouge";
    assert Join(["sorcerer", "rouge"], ", ") == "sorcerer" + ", " + "rouge";
  }

  /** The enum literal splits into the alternatives the handler lists in its message. */
  lemma SplitClassValues()
    ensures Split("warrior|sorcerer|rouge", '|') == ClassValues
    ensures Join(ClassValues, ", ") == "warrior, sorcerer, rouge"
  {
    JoinClassValues();
    forall i | 0 <= i < |ClassValues| ensures '|' !in ClassValues[i] {}
    SplitJoin(ClassValues, '|');
  }

  /** The alternatives the Status validator splits out of its enum literal. */
  method StatusEnum() returns (enumVal: seq<string>)
    ensures enumVal == StatusValues
  {
    enumVal := Split("user|moderator|admin", '|');
    SplitStatusValues();
  }

  /** The alternatives the Class validator splits out of its enum literal. */
  method ClassEnum() returns (enumVal: seq<string>)
    ensures enumVal == ClassValues
  {
    enumVal := Split("warrior|sorcerer|rouge", '|');
    SplitClassValues();
  }

  method ValidateProfileParams(param: ProfileParams) returns (err: Option<ApiError>)
    ensures err == ProfileViolation(param)
    ensures err.None? <==> param.login != ""
  {
    if param.login == "" {
      return Some(ApiError(StatusBadRequest, "login must me not empty"));
    }
    return None;
  }

  method ValidateCreateParams(param: CreateParams) returns (err: Option<ApiError>)
    ensures err == CreateViolation(param)
    ensures err.None? <==> param.login != "" && |param.login| >= 10 &&
                           (param.status in StatusValues || param.status == "") && 0 <= param.age <= 128
  {
    var p := param;
    if p.login == "" {
      return Some(ApiError(StatusBadRequest, "login must me not empty"));
    }
    if |p.login| < 10 {
      return Some(ApiError(StatusBadRequest, "login len must be >= 10"));
    }
    var enumVal := StatusEnum();
    var findVal := FindValue(enumVal, p.status);
    if !findVal && p.status == "" {
      p := p.(status := "user");
      findVal := true;
    }
    if !findVal {
      return Some(ApiError(StatusBadRequest, "status must be one of [" + Join(enumVal, ", ") + "]"));
    }
    if p.age < 0 {
      return Some(ApiError(StatusBadRequest, "age must be >= 0"));
    }
    if p.age > 128 {
      return Some(ApiError(StatusBadRequest, "age must be <= 128"));
    }
    return None;
  }

  method ValidateOtherCreateParams(param: OtherCreateParams) returns (err: Option<ApiError>)
    ensures err == OtherCreateViolation(param)
    ensures err.None? <==> param.username != "" && |param.username| >= 3 &&
                           (param.heroClass in ClassValues || param.heroClass == "") && 1 <= param.level <= 50
  {
    var p := param;
    if p.username == "" {
      return Some(ApiError(StatusBadRequest, "username must me not empty"));
    }
    if |p.username| < 3 {
      return Some(ApiError(StatusBadRequest, "username len must be >= 3"));
    }
    var enumVal := ClassEnum();
    var findVal := FindValue(enumVal, p.heroClass);
    if !findVal && p.heroClass == "" {
      p := p.(heroClass := "warrior");
      findVal := true;
    }
    if !findVal {
      return Some(ApiError(StatusBadRequest, "class must be one of [" + Join(enumVal, ", ") + "]"));
    }
    if p.level < 1 {
      return Some(ApiError(StatusBadRequest, "level must be >= 1"));
    }
    if p.level > 50 {
      return Some(ApiError(StatusBadRequest, "level must be <= 50"));
    }
    return None;
  }

  // ----- decoding -----

  function DecodeProfile(r: Request): Result<ProfileParams, ApiError>
  {
    match FillValue("Login", "string", r)
    case Err(e) => Err(e)
    case Ok(login) => Ok(ProfileParams(StrOf(login)))
  }

  /** Login, full_name, Status and Age in that order; only Age, an int, can fail to decode. */
  function DecodeCreate(r: Request): Result<CreateParams, ApiError>
  {
    match FillValue("Login", "string", r)
    case Err(e) => Err(e)
    case Ok(login) =>
      match FillValue("full_name", "string", r)
      case Err(e) => Err(e)
      case Ok(name) =>
        match FillValue("Status", "string", r)
        case Err(e) => Err(e)
        case Ok(status) =>
          match FillValue("Age", "int", r)
          case Err(e) => Err(e)
          case Ok(age) => Ok(CreateParams(StrOf(login), StrOf(name), StrOf(status), IntOf(age)))
  }

  /** Username, account_name, Class and Level in that order. */
  function DecodeOtherCreate(r: Request): Result<OtherCreateParams, ApiError>
  {
    match FillValue("Username", "string", r)
    case Err(e) => Err(e)
    case Ok(username) =>
      match FillValue("account_name", "string", r)
      case Err(e) => Err(e)
      case Ok(name) =>
        match FillValue("Class", "string", r)
        case Err(e) => Err(e)
        case Ok(heroClass) =>
          match FillValue("Level", "int", r)
          case Err(e) => Err(e)
          case Ok(level) => Ok(OtherCreateParams(StrOf(username), StrOf(name), StrOf(heroClass), IntOf(level)))
  }

  // ----- handlers -----

  function ProfileOutcome<A>(r: Request, profile: ProfileParams -> BizResult<A>): Response<A>
  {
    match DecodeProfile(r)
    case Err(e) => ErrorResponse(e.httpStatus, e.err)
    case Ok(p) =>
      match ProfileViolation(p)
      case Some(e) => ErrorResponse(e.httpStatus, e.err)
      case None => BizResponse(profile(p))
  }

  function CreateOutcome<A>(r: Request, create: CreateParams -> BizResult<A>): Response<A>
    requires WellFormedAuth(r)
  {
    if !Authorized(r) then Unauthorized()
    else if r.verb != MethodPost then BadMethod()
    else
      match DecodeCreate(r)
      case Err(e) => ErrorResponse(e.httpStatus, e.err)
      case Ok(p) =>
        match CreateViolation(p)
        case Some(e) => ErrorResponse(e.httpStatus, e.err)
        case None => BizResponse(create(p))
  }

  function OtherCreateOutcome<A>(r: Request, create: OtherCreateParams -> BizResult<A>): Response<A>
    requires WellFormedAuth(r)
  {
    if !Authorized(r) then Unauthorized()
    else if r.verb != MethodPost then BadMethod()
    else
      match DecodeOtherCreate(r)
      case Err(e) => ErrorResponse(e.httpStatus, e.err)
      case Ok(p) =>
        match OtherCreateViolation(p)
        case Some(e) => ErrorResponse(e.httpStatus, e.err)
        case None => BizResponse(create(p))
  }

  /** MyApi.handlerProfile: no auth gate and no method gate. */
  method HandlerProfile<A>(r: Request, profile: ProfileParams -> BizResult<A>) returns (resp: Response<A>)
    ensures resp == ProfileOutcome(r, profile)
  {
    var valLogin := FillValue("Login", "string", r);
    if valLogin.Err? {
      return ErrorResponse(valLogin.error.httpStatus, valLogin.error.err);
    }
    var params := ProfileParams(StrOf(valLogin.value));
    var valErr := ValidateProfileParams(params);
    if valErr.Some? {
      return ErrorResponse(valErr.value.httpStatus, valErr.value.err);
    }
    var answer := profile(params);
    return BizResponse(answer);
  }

  /** MyApi.handlerCreate: auth gate, POST gate, four decodes, validation, the business call. */
  method HandlerCreate<A>(r: Request, create: CreateParams -> BizResult<A>) returns (resp: Response<A>)
    requires WellFormedAuth(r)
    ensures resp == CreateOutcome(r, create)
  {
    if AuthHeader in r.header {
      if r.header[AuthHeader][0] != AuthToken {
        return Unauthorized();
      }
    } else {
      return Unauthorized();
    }
    if r.verb != MethodPost {
      return BadMethod();
    }
    var valLogin := FillValue("Login", "string", r);
    if valLogin.Err? {
      return ErrorResponse(valLogin.error.httpStatus, valLogin.error.err);
    }
    var valName := FillValue("full_name", "string", r);
    if valName.Err? {
      return ErrorResponse(valName.error.httpStatus, valName.error.err);
    }
    var valStatus := FillValue("Status", "string", r);
    if valStatus.Err? {
      return ErrorResponse(valStatus.error.httpStatus, valStatus.error.err);
    }
    var valAge := FillValue("Age", "int", r);
    if valAge.Err? {
      return ErrorResponse(valAge.error.httpStatus, valAge.error.err);
    }
    var params := CreateParams(StrOf(valLogin.value), StrOf(valName.value), StrOf(valStatus.value), IntOf(valAge.value));
    var valErr := ValidateCreateParams(params);
    if valErr.Some? {
      return ErrorResponse(valErr.value.httpStatus, valErr.value.err);
    }
    var answer := create(params);
    return BizResponse(answer);
  }

  /** OtherApi.handlerCreate: the same pipeline over OtherCreateParams. */
  method HandlerOtherCreate<A>(r: Request, create: OtherCreateParams -> BizResult<A>) returns (resp: Response<A>)
    requires WellFormedAuth(r)
    ensures resp == OtherCreateOutcome(r, create)
  {
    if AuthHeader in r.header {
      if r.header[AuthHeader][0] != AuthToken {
        return Unauthorized();
      }
    } else {
      return Unauthorized();
    }
    if r.verb != MethodPost {
      return BadMethod();
    }
    var valUsername := FillValue("Username", "string", r);
    if valUsername.Err? {
      return ErrorResponse(valUsername.error.httpStatus, valUsername.error.err);
    }
    var valName := FillValue("account_name", "string", r);
    if valName.Err? {
      return ErrorResponse(valName.error.httpStatus, valName.error.err);
    }
    var valClass := FillValue("Class", "string", r);
    if valClass.Err? {
      return ErrorResponse(valClass.error.httpStatus, valClass.error.err);
    }
    var valLevel := FillValue("Level", "int", r);
    if valLevel.Err? {
      return ErrorResponse(valLevel.error.httpStatus, valLevel.error.err);
    }
    var params := OtherCreateParams(StrOf(valUsername.value), StrOf(valName.value), StrOf(valClass.value), IntOf(valLevel.value));
    var valErr := ValidateOtherCreateParams(params);
    if valErr.Some? {
      return ErrorResponse(valErr.value.httpStatus, valErr.value.err);
    }
    var answer := create(params);
    return BizResponse(answer);
  }

  /** MyApi.ServeHTTP: exact-path dispatch over its two endpoints. */
  function MyApiServe<A>(r: Request, profile: ProfileParams -> BizResult<A>, create: CreateParams -> BizResult<A>): Response<A>
    requires WellFormedAuth(r)
  {
    if r.path == "/user/profile" then ProfileOutcome(r, profile)
    else if r.path == "/user/create" then CreateOutcome(r, create)
    else UnknownMethod()
  }

  /** OtherApi.ServeHTTP: only "/user/create" is known. */
  function OtherApiServe<A>(r: Request, create: OtherCreateParams -> BizResult<A>): Response<A>
    requires WellFormedAuth(r)
  {
    if r.path == "/user/create" then OtherCreateOutcome(r, create)
    else UnknownMethod()
  }

  // ----- properties of the handlers -----

  lemma MyApiRoutes<A>(r: Request, profile: ProfileParams -> BizResult<A>, create: CreateParams -> BizResult<A>)
    requires WellFormedAuth(r)
    ensures r.path != "/user/profile" && r.path != "/user/create" ==>
              MyApiServe(r, profile, create) == Response(StatusNotFound, "unknown method", None)
    ensures r.path == "/user/create" && !Authorized(r) ==>
              MyApiServe(r, profile, create) == Response(StatusForbidden, "unauthorized", None)
    ensures r.path == "/user/create" && Authorized(r) && r.verb != MethodPost ==>
              MyApiServe(r, profile, create) == Response(StatusNotAcceptable, "bad method", None)
  {
  }

  /** The profile endpoint has no gates: any verb and any header reach decoding and validation. */
  lemma ProfileHasNoGates<A>(r: Request, profile: ProfileParams -> BizResult<A>, create: CreateParams -> BizResult<A>)
    requires WellFormedAuth(r) && r.path == "/user/profile"
    ensures FormValue(r, "login") == "" ==>
              MyApiServe(r, profile, create) == Response(StatusBadRequest, "login must me not empty", None)
    ensures FormValue(r, "login") != "" ==>
              MyApiServe(r, profile, create) == BizResponse(profile(ProfileParams(FormValue(r, "login"))))
  {
    assert ToLower("Login") == "login";
  }

  lemma OtherApiRoutes<A>(r: Request, create: OtherCreateParams -> BizResult<A>)
    requires WellFormedAuth(r)
    ensures r.path != "/user/create" ==> OtherApiServe(r, create) == Response(StatusNotFound, "unknown method", None)
    ensures r.path == "/user/profile" ==> OtherApiServe(r, create).status == StatusNotFound
    ensures r.path == "/user/create" && !Authorized(r) ==>
              OtherApiServe(r, create) == Response(StatusForbidden, "unauthorized", None)
    ensures r.path == "/user/create" && Authorized(r) && r.verb != MethodPost ==>
              OtherApiServe(r, create) == Response(StatusNotAcceptable, "bad method", None)
  {
  }

  lemma AgeMessage()
    ensures "age" + " must be " + "int" == "age must be int"
  {
  }

  lemma LoginKey()
    ensures ToLower("Login") == "login"
  {
    ToLowerCapitalised("Login");
  }

  lemma FullNameKey()
    ensures ToLower("full_name") == "full_name"
  {
    var key := "full_name";
    forall i | 0 <= i < |key| ensures !('A' <= key[i] <= 'Z') {}
    ToLowerNoUpper(key);
  }

  lemma StatusKey()
    ensures ToLower("Status") == "status"
  {
    ToLowerCapitalised("Status");
  }

  lemma AgeKey()
    ensures ToLower("Age") == "age"
  {
    ToLowerCapitalised("Age");
  }

  /** Name is read from full_name; a non-integer age answers 400 "age must be int". */
  lemma CreateDecoding(r: Request)
    ensures Atoi(FormValue(r, "age")).None? ==> DecodeCreate(r) == Err(ApiError(StatusBadRequest, "age must be int"))
    ensures Atoi(FormValue(r, "age")).Some? ==>
              DecodeCreate(r) == Ok(CreateParams(FormValue(r, "login"), FormValue(r, "full_name"),
                                                 FormValue(r, "status"), Atoi(FormValue(r, "age")).value))
  {
    LoginKey();
    FullNameKey();
    StatusKey();
    AgeKey();
    AgeMessage();
    var age := FillValue("Age", "int", r);
    assert Atoi(FormValue(r, "age")).None? ==> age == Err(ApiError(StatusBadRequest, "age must be int"));
    assert Atoi(FormValue(r, "age")).Some? ==> age == Ok(Int(Atoi(FormValue(r, "age")).value));
  }

  lemma UsernameKey()
    ensures ToLower("Username") == "username"
  {
    ToLowerCapitalised("Username");
  }

  lemma AccountNameKey()
    ensures ToLower("account_name") == "account_name"
  {
    var key := "account_name";
    forall i | 0 <= i < |key| ensures !('A' <= key[i] <= 'Z') {}
    ToLowerNoUpper(key);
  }

  lemma ClassKey()
    ensures ToLower("Class") == "class"
  {
    ToLowerCapitalised("Class");
  }

  lemma LevelKey()
    ensures ToLower("Level") == "level"
  {
    ToLowerCapitalised("Level");
  }

  lemma LevelMessage()
    ensures "level" + " must be " + "int" == "level must be int"
  {
  }

  /** Name is read from account_name; a non-integer level answers 400 "level must be int". */
  lemma OtherCreateDecoding(r: Request)
    ensures Atoi(FormValue(r, "level")).None? ==> DecodeOtherCreate(r) == Err(ApiError(StatusBadRequest, "level must be int"))
    ensures Atoi(FormValue(r, "level")).Some? ==>
              DecodeOtherCreate(r) == Ok(OtherCreateParams(FormValue(r, "username"), FormValue(r, "account_name"),
                                                           FormValue(r, "class"), Atoi(FormValue(r, "level")).value))
  {
    UsernameKey();
    AccountNameKey();
    ClassKey();
    LevelKey();
    LevelMessage();
    var level := FillValue("Level", "int", r);
    assert Atoi(FormValue(r, "level")).None? ==> level == Err(ApiError(StatusBadRequest, "level must be int"));
    assert Atoi(FormValue(r, "level")).Some? ==> level == Ok(Int(Atoi(FormValue(r, "level")).value));
  }
}
