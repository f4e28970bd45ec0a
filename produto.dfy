/** The product routes of the proxy (`/api/produto/...`): validate, build the
    upstream URL from `API_ENDPOINT_PRODUTO` (`endpoint`), forward through
    `make_api_request` (`api`), and answer with the upstream body and status. */
module ProdutoRoutes {
  import opened Base
  import opened Json
  import opened Http

  const CreateFields := ["nome", "descricao", "valor_unitario", "foto"]
  const UpdateFields := ["id_produto", "nome", "descricao", "valor_unitario", "foto"]

  /** GET /all */
  function GetProdutos(endpoint: string, api: ApiCall -> ApiResult): (h: Handled)
    ensures h.calls == [ApiCall(Get, endpoint, None)]
    ensures h.response == JsonResponse(api(h.calls[0]).body, api(h.calls[0]).status)
  {
    Forward(ApiCall(Get, endpoint, None), api)
  }

  /** GET /one?id_produto=... The refusal reads `Funcoes.PARAMETRO_ID_PRODUTO_OBRIGATORIO`,
      which `Funcoes` does not define: the AttributeError becomes Flask's 500. */
  function GetProduto(req: Request, endpoint: string, api: ApiCall -> ApiResult): Handled
  {
    if ArgMissing(req.args, "id_produto") then Handled(InternalServerError, [])
    else Forward(ApiCall(Get, endpoint + req.args["id_produto"], None), api)
  }

  /** DELETE /?id_produto=... with the same undefined message constant. */
  function DeleteProduto(req: Request, endpoint: string, api: ApiCall -> ApiResult): Handled
  {
    if ArgMissing(req.args, "id_produto") then Handled(InternalServerError, [])
    else Forward(ApiCall(Delete, endpoint + req.args["id_produto"], None), api)
  }

  /** POST / */
  function CreateProduto(req: Request, endpoint: string, api: ApiCall -> ApiResult): Handled
  {
    if !req.isJson then Reject(ErrorBody(NotJsonMessage), 400)
    else if !AllPresent(CreateFields, req.data) then Reject(MissingFieldsBody(CreateFields), 400)
    else Forward(ApiCall(Post, endpoint, Some(JObj(req.data))), api)
  }

  /** PUT / with the id in the body. */
  function UpdateProduto(req: Request, endpoint: string, api: ApiCall -> ApiResult): Handled
  {
    if !req.isJson then Reject(ErrorBody(NotJsonMessage), 400)
    else if !AllPresent(UpdateFields, req.data) then Reject(MissingFieldsBody(UpdateFields), 400)
    else Forward(ApiCall(Put, endpoint + PyStr(req.data["id_produto"]), Some(JObj(req.data))), api)
  }

  /** Every product route makes at most one upstream call, and when it makes
      one it answers with that call's body and status unchanged. */
  predicate PassesThrough(h: Handled, api: ApiCall -> ApiResult)
  {
    |h.calls| <= 1
    && (|h.calls| == 1 ==> h.response == JsonResponse(api(h.calls[0]).body, api(h.calls[0]).status))
  }

  // ---------------------------------------------------------------------
  // Properties

  lemma AllRoutesPassThrough(req: Request, endpoint: string, api: ApiCall -> ApiResult)
    ensures PassesThrough(GetProdutos(endpoint, api), api)
    ensures PassesThrough(GetProduto(req, endpoint, api), api)
    ensures PassesThrough(DeleteProduto(req, endpoint, api), api)
    ensures PassesThrough(CreateProduto(req, endpoint, api), api)
    ensures PassesThrough(UpdateProduto(req, endpoint, api), api)
  {
  }

  /** Get-one and delete never reach the API without a non-empty
      `id_produto`; they then target the endpoint followed by that id. */
  lemma IdRequiredForOneAndDelete(req: Request, endpoint: string, api: ApiCall -> ApiResult)
    ensures ArgMissing(req.args, "id_produto") <==> GetProduto(req, endpoint, api).calls == []
    ensures ArgMissing(req.args, "id_produto") <==> DeleteProduto(req, endpoint, api).calls == []
    ensures ArgMissing(req.args, "id_produto") ==>
      GetProduto(req, endpoint, api).response == InternalServerError
      && DeleteProduto(req, endpoint, api).response == InternalServerError
    ensures !ArgMissing(req.args, "id_produto") ==>
      GetProduto(req, endpoint, api).calls == [ApiCall(Get, endpoint + req.args["id_produto"], None)]
      && DeleteProduto(req, endpoint, api).calls == [ApiCall(Delete, endpoint + req.args["id_produto"], None)]
  {
  }

  /** Create and update refuse a non-JSON body with 400 before anything else,
      refuse a JSON body lacking a required field with 400 naming the fields,
      and reach the API exactly when every required field is present. */
  lemma BodyValidation(req: Request, endpoint: string, api: ApiCall -> ApiResult)
    ensures !req.isJson ==>
      CreateProduto(req, endpoint, api) == Handled(JsonResponse(ErrorBody(NotJsonMessage), 400), [])
      && UpdateProduto(req, endpoint, api) == Handled(JsonResponse(ErrorBody(NotJsonMessage), 400), [])
    ensures req.isJson && (exists f :: f in CreateFields && f !in req.data) ==>
      CreateProduto(req, endpoint, api) == Handled(JsonResponse(MissingFieldsBody(CreateFields), 400), [])
    ensures req.isJson && (exists f :: f in UpdateFields && f !in req.data) ==>
      UpdateProduto(req, endpoint, api) == Handled(JsonResponse(MissingFieldsBody(UpdateFields), 400), [])
    ensures CreateProduto(req, endpoint, api).calls == [] ==>
      CreateProduto(req, endpoint, api).response.JsonResponse? && CreateProduto(req, endpoint, api).response.status == 400
    ensures UpdateProduto(req, endpoint, api).calls == [] ==>
      UpdateProduto(req, endpoint, api).response.JsonResponse? && UpdateProduto(req, endpoint, api).response.status == 400
    ensures CreateProduto(req, endpoint, api).calls != [] <==>
      req.isJson && forall f :: f in CreateFields ==> f in req.data
    ensures UpdateProduto(req, endpoint, api).calls != [] <==>
      req.isJson && forall f :: f in UpdateFields ==> f in req.data
    ensures CreateProduto(req, endpoint, api).calls != [] ==>
      CreateProduto(req, endpoint, api).calls == [ApiCall(Post, endpoint, Some(JObj(req.data)))]
    ensures UpdateProduto(req, endpoint, api).calls != [] ==>
      UpdateProduto(req, endpoint, api).calls == [ApiCall(Put, endpoint + PyStr(req.data["id_produto"]), Some(JObj(req.data)))]
  {
  }

  /** Every field create needs, update needs too, and update also needs the id. */
  lemma UpdateNeedsMoreThanCreate(req: Request, endpoint: string, api: ApiCall -> ApiResult)
    ensures UpdateProduto(req, endpoint, api).calls != [] ==> CreateProduto(req, endpoint, api).calls != []
    ensures req.isJson && "id_produto" !in req.data ==> UpdateProduto(req, endpoint, api).calls == []
  {
    assert "id_produto" in UpdateFields;
    assert forall f :: f in CreateFields ==> f in UpdateFields;
  }
}
