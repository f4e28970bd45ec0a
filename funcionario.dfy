/** The employee routes of the proxy (`/api/funcionario/...`). Each handler is
    a function of the request; `api` stands for `Funcoes.make_api_request`,
    `endpoint` for `API_ENDPOINT_FUNCIONARIO`, and the local account for
    `LOCAL_USERNAME` / `LOCAL_PASSWORD`. */
module FuncionarioRoutes {
  import opened Base
  import opened Json
  import opened Http

  const CreateFields := ["nome", "matricula", "cpf", "senha", "grupo", "telefone"]
  const UpdateFields := ["id_funcionario", "nome", "matricula", "cpf", "senha", "grupo", "telefone"]
  const LoginFields := ["cpf", "senha"]
  const LocalLoginFields := ["username", "senha"]

  const IdRequiredMessage := "O parâmetro 'id_funcionario' é obrigatório"
  const CpfRequiredMessage := "O parâmetro 'cpf' é obrigatório"
  const CreateFailedMessage := "Falha ao criar funcionário"
  const UpdateFailedMessage := "Falha ao atualizar funcionário"
  const LocalPrefixMessage := "Login local deve iniciar com '@'"
  const LocalSuccessMessage := "Login local bem-sucedido"
  const InvalidLoginMessage := "Usuário ou senha inválidos"

  /** Pass a 200 or 201 through; wrap any other status as
      `{'error': failure, 'details': body}` with the same status. */
  function WrapFailure(r: ApiResult, failure: string): HttpResponse
  {
    if r.status == 200 || r.status == 201 then JsonResponse(r.body, r.status)
    else JsonResponse(JObj(map["error" := JStr(failure), "details" := r.body]), r.status)
  }

  /** GET /all */
  function GetFuncionarios(endpoint: string, api: ApiCall -> ApiResult): (h: Handled)
    ensures h.calls == [ApiCall(Get, endpoint, None)]
    ensures h.calls != [] ==> h.response == JsonResponse(api(h.calls[0]).body, api(h.calls[0]).status)
  {
    Forward(ApiCall(Get, endpoint, None), api)
  }

  /** GET /one?id_funcionario=... */
  function GetFuncionario(req: Request, endpoint: string, api: ApiCall -> ApiResult): (h: Handled)
    ensures ArgMissing(req.args, "id_funcionario") <==> h.calls == []
    ensures ArgMissing(req.args, "id_funcionario") ==> h.response == JsonResponse(ErrorBody(IdRequiredMessage), 400)
    ensures !ArgMissing(req.args, "id_funcionario") ==>
      h.calls == [ApiCall(Get, endpoint + req.args["id_funcionario"], None)]
    ensures h.calls != [] ==> h.response == JsonResponse(api(h.calls[0]).body, api(h.calls[0]).status)
  {
    if ArgMissing(req.args, "id_funcionario") then Reject(ErrorBody(IdRequiredMessage), 400)
    else Forward(ApiCall(Get, endpoint + req.args["id_funcionario"], None), api)
  }

  /** POST / */
  function CreateFuncionario(req: Request, endpoint: string, api: ApiCall -> ApiResult): (h: Handled)
  {
    if !req.isJson then Reject(ErrorBody(NotJsonMessage), 400)
    else if !AllPresent(CreateFields, req.data) then Reject(MissingFieldsBody(CreateFields), 400)
    else
      var call := ApiCall(Post, endpoint, Some(JObj(req.data)));
      Handled(WrapFailure(api(call), CreateFailedMessage), [call])
  }

  /** PUT / with the id in the body. */
  function UpdateFuncionario(req: Request, endpoint: string, api: ApiCall -> ApiResult): (h: Handled)
  {
    if !req.isJson then Reject(ErrorBody(NotJsonMessage), 400)
    else if !AllPresent(UpdateFields, req.data) then Reject(MissingFieldsBody(UpdateFields), 400)
    else
      var call := ApiCall(Put, endpoint + PyStr(req.data["id_funcionario"]), Some(JObj(req.data)));
      Handled(WrapFailure(api(call), UpdateFailedMessage), [call])
  }

  /** DELETE /?id_funcionario=... */
  function DeleteFuncionario(req: Request, endpoint: string, api: ApiCall -> ApiResult): (h: Handled)
    ensures ArgMissing(req.args, "id_funcionario") <==> h.calls == []
    ensures ArgMissing(req.args, "id_funcionario") ==> h.response == JsonResponse(ErrorBody(IdRequiredMessage), 400)
    ensures !ArgMissing(req.args, "id_funcionario") ==>
      h.calls == [ApiCall(Delete, endpoint + req.args["id_funcionario"], None)]
    ensures h.calls != [] ==> h.response == JsonResponse(api(h.calls[0]).body, api(h.calls[0]).status)
  {
    if ArgMissing(req.args, "id_funcionario") then Reject(ErrorBody(IdRequiredMessage), 400)
    else Forward(ApiCall(Delete, endpoint + req.args["id_funcionario"], None), api)
  }

  /** GET /cpf?cpf=... */
  function ValidateCpf(req: Request, endpoint: string, api: ApiCall -> ApiResult): (h: Handled)
    ensures ArgMissing(req.args, "cpf") <==> h.calls == []
    ensures ArgMissing(req.args, "cpf") ==> h.response == JsonResponse(ErrorBody(CpfRequiredMessage), 400)
    ensures !ArgMissing(req.args, "cpf") ==>
      h.calls == [ApiCall(Get, endpoint + "cpf/" + req.args["cpf"], None)]
    ensures h.calls != [] ==> h.response == JsonResponse(api(h.calls[0]).body, api(h.calls[0]).status)
  {
    if ArgMissing(req.args, "cpf") then Reject(ErrorBody(CpfRequiredMessage), 400)
    else Forward(ApiCall(Get, endpoint + "cpf/" + req.args["cpf"], None), api)
  }

  /** POST /login: forwards only `cpf` and `senha`. */
  function ValidarLogin(req: Request, endpoint: string, api: ApiCall -> ApiResult): (h: Handled)
  {
    if !req.isJson then Reject(ErrorBody(NotJsonMessage), 400)
    else if !AllPresent(LoginFields, req.data) then Reject(MissingFieldsBody(LoginFields), 400)
    else
      var forwarded := map["cpf" := req.data["cpf"], "senha" := req.data["senha"]];
      Forward(ApiCall(Post, endpoint + "login/", Some(JObj(forwarded))), api)
  }

  /** POST /login_local: a local account written `@name`. A username that is
      not a JSON string makes `startswith` raise, which Flask answers with 500. */
  function LoginLocal(req: Request, localUsername: string, localPassword: string): (r: HttpResponse)
  {
    if !req.isJson then JsonResponse(ErrorBody(NotJsonMessage), 400)
    else if !AllPresent(LocalLoginFields, req.data) then JsonResponse(MissingFieldsBody(LocalLoginFields), 400)
    else match req.data["username"]
      case JStr(username) =>
        if !(|username| > 0 && username[0] == '@') then JsonResponse(ErrorBody(LocalPrefixMessage), 400)
        else if username[1..] == localUsername && req.data["senha"] == JStr(localPassword) then
          JsonResponse(JObj(map["message" := JStr(LocalSuccessMessage), "grupo" := JStr("administrador")]), 200)
        else JsonResponse(ErrorBody(InvalidLoginMessage), 401)
      case _ => InternalServerError
  }

  // ---------------------------------------------------------------------
  // Properties

  /** Create reaches the API exactly when the body is JSON and carries every
      required field; the JSON body is then forwarded whole, once. */
  lemma CreateRequiresFields(req: Request, endpoint: string, api: ApiCall -> ApiResult)
    ensures var h := CreateFuncionario(req, endpoint, api);
      && (h.calls != [] <==> req.isJson && forall f :: f in CreateFields ==> f in req.data)
      && (h.calls == [] ==> h.response.JsonResponse? && h.response.status == 400)
      && (h.calls != [] ==> h.calls == [ApiCall(Post, endpoint, Some(JObj(req.data)))])
  {
  }

  /** Update needs `id_funcionario` besides the create fields and targets the
      endpoint followed by that id. */
  lemma UpdateRequiresIdAndTargetsIt(req: Request, endpoint: string, api: ApiCall -> ApiResult)
    ensures var h := UpdateFuncionario(req, endpoint, api);
      && (h.calls != [] <==> req.isJson && forall f :: f in UpdateFields ==> f in req.data)
      && (h.calls == [] ==> h.response.JsonResponse? && h.response.status == 400)
      && (h.calls != [] ==>
            && |h.calls| == 1 && h.calls[0].verb == Put
            && h.calls[0].url == endpoint + PyStr(req.data["id_funcionario"])
            && h.calls[0].data == Some(JObj(req.data)))
  {
  }

  /** A body missing only the id is accepted by create and refused by update. */
  lemma UpdateNeedsMoreThanCreate(req: Request, endpoint: string, api: ApiCall -> ApiResult)
    requires req.isJson && "id_funcionario" !in req.data
    requires forall f :: f in CreateFields ==> f in req.data
    ensures CreateFuncionario(req, endpoint, api).calls != []
    ensures UpdateFuncionario(req, endpoint, api).calls == []
  {
    assert "id_funcionario" in UpdateFields;
  }

  /** Two updates whose numeric ids differ target different URLs, and the
      URL ends with the decimal text of the id. */
  lemma UpdateTargetsDistinctRecords(r1: Request, r2: Request, endpoint: string, api: ApiCall -> ApiResult, i: int, j: int)
    requires r1.isJson && r2.isJson
    requires forall f :: f in UpdateFields ==> f in r1.data && f in r2.data
    requires r1.data["id_funcionario"] == JNum(i) && r2.data["id_funcionario"] == JNum(j)
    requires UpdateFuncionario(r1, endpoint, api).calls[0].url == UpdateFuncionario(r2, endpoint, api).calls[0].url
    ensures i == j
    ensures var suffix := UpdateFuncionario(r1, endpoint, api).calls[0].url[|endpoint|..];
      suffix == IntToDecimal(i) && (i >= 0 ==> AllRadixDigits(suffix, 10) && RadixValue(suffix, 10) == i)
  {
    var u1 := endpoint + PyStr(JNum(i));
    var u2 := endpoint + PyStr(JNum(j));
    assert u1[|endpoint|..] == PyStr(JNum(i));
    assert u2[|endpoint|..] == PyStr(JNum(j));
    NumberTextInjective(i, j);
    if i >= 0 {
      NatToDecimalValue(i);
    }
  }

  /** A 200 or 201 from the API passes through; every other status keeps its
      code and wraps the API's body under `details`. */
  lemma StatusPassThrough(r: ApiResult, failure: string)
    ensures WrapFailure(r, failure).JsonResponse? && WrapFailure(r, failure).status == r.status
    ensures r.status == 200 || r.status == 201 ==> WrapFailure(r, failure).body == r.body
    ensures r.status != 200 && r.status != 201 ==>
      WrapFailure(r, failure).body.JObj?
      && WrapFailure(r, failure).body.fields.Keys == {"error", "details"}
      && WrapFailure(r, failure).body.fields["error"] == JStr(failure)
      && WrapFailure(r, failure).body.fields["details"] == r.body
  {
  }

  /** Create and update answer with the API's status, wrapping failures. */
  lemma CreateUpdateAnswers(req: Request, endpoint: string, api: ApiCall -> ApiResult)
    ensures var h := CreateFuncionario(req, endpoint, api);
      h.calls != [] ==> h.response == WrapFailure(api(h.calls[0]), CreateFailedMessage)
    ensures var h := UpdateFuncionario(req, endpoint, api);
      h.calls != [] ==> h.response == WrapFailure(api(h.calls[0]), UpdateFailedMessage)
  {
  }

  /** Login needs `cpf` and `senha` and forwards exactly those two members;
      a non-JSON body or a missing member is refused with 400. */
  lemma LoginForwardsOnlyCredentials(req: Request, endpoint: string, api: ApiCall -> ApiResult)
    ensures var h := ValidarLogin(req, endpoint, api);
      && (h.calls != [] <==> req.isJson && "cpf" in req.data && "senha" in req.data)
      && (!req.isJson ==> h.response == JsonResponse(ErrorBody(NotJsonMessage), 400))
      && (req.isJson && !("cpf" in req.data && "senha" in req.data) ==>
            h.response == JsonResponse(MissingFieldsBody(LoginFields), 400))
      && (h.calls != [] ==>
            && |h.calls| == 1 && h.calls[0].url == endpoint + "login/"
            && h.calls[0].data.Some? && h.calls[0].data.value.JObj?
            && h.calls[0].data.value.fields.Keys == {"cpf", "senha"}
            && h.calls[0].data.value.fields["cpf"] == req.data["cpf"]
            && h.calls[0].data.value.fields["senha"] == req.data["senha"]
            && h.response == JsonResponse(api(h.calls[0]).body, api(h.calls[0]).status))
  {
  }

  /** Local login refuses a non-JSON body and a missing `username` or `senha`
      with 400; a username that is not a string makes `startswith` raise,
      which Flask answers with 500. */
  lemma LocalLoginRefusals(req: Request, localUsername: string, localPassword: string)
    ensures !req.isJson ==>
      LoginLocal(req, localUsername, localPassword) == JsonResponse(ErrorBody(NotJsonMessage), 400)
    ensures req.isJson && !("username" in req.data && "senha" in req.data) ==>
      LoginLocal(req, localUsername, localPassword) == JsonResponse(MissingFieldsBody(LocalLoginFields), 400)
    ensures req.isJson && "username" in req.data && "senha" in req.data && !req.data["username"].JStr? ==>
      LoginLocal(req, localUsername, localPassword) == InternalServerError
  {
  }

  /** A JSON string username without a leading '@' is refused with 400. */
  lemma LocalLoginNeedsPrefix(req: Request, localUsername: string, localPassword: string)
    requires req.isJson && "username" in req.data && "senha" in req.data
    requires req.data["username"].JStr?
    ensures var u := req.data["username"].s;
      !(|u| > 0 && u[0] == '@') <==>
        LoginLocal(req, localUsername, localPassword) == JsonResponse(ErrorBody(LocalPrefixMessage), 400)
  {
  }

  /** Local login succeeds, with group "administrador", exactly when the
      username is '@' followed by the local user name and the password is the
      local password; every other well-formed attempt gets 401. */
  lemma LocalLoginIff(req: Request, localUsername: string, localPassword: string)
    requires req.isJson && "username" in req.data && "senha" in req.data
    requires req.data["username"].JStr?
    requires |req.data["username"].s| > 0 && req.data["username"].s[0] == '@'
    ensures var r := LoginLocal(req, localUsername, localPassword);
      && r.JsonResponse?
      && (r.status == 200 <==> req.data["username"] == JStr("@" + localUsername) && req.data["senha"] == JStr(localPassword))
      && (r.status == 200 ==> r.body.JObj? && r.body.fields["grupo"] == JStr("administrador"))
      && (r.status != 200 ==> r == JsonResponse(ErrorBody(InvalidLoginMessage), 401))
  {
    var u := req.data["username"].s;
    assert u == "@" + u[1..];
  }

  /** An illustration of `LocalLoginIff` on one input: only one '@' is
      stripped, so "@@x" logs in as the local user "@x". */
  lemma LocalLoginStripsOneAt(localPassword: string)
    ensures var req := Request(true, map["username" := JStr("@@x"), "senha" := JStr(localPassword)], map[]);
      LoginLocal(req, "@x", localPassword).status == 200 && LoginLocal(req, "x", localPassword).status == 401
  {
    var req := Request(true, map["username" := JStr("@@x"), "senha" := JStr(localPassword)], map[]);
    assert AllPresent(LocalLoginFields, req.data);
    assert "@@x"[1..] == "@x";
  }
}
