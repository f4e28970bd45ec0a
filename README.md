# Comandas app: front-end session and forms, route table, and proxy validators

This project models the decision logic of a small order-management app
("comandas") and proves properties about it. The app has two parts:

- a React front end: the authentication provider, the login, customer and
  employee forms, and the route table;
- a Flask proxy (the BFF, "backend for frontend"): it validates requests,
  obtains and caches an API token in the Flask session, and forwards
  requests to the upstream API.

The model is written in Dafny, one module per source file plus shared
helpers:

| module | models |
|---|---|
| `Base` | `Option`, decimal formatting of integers, JavaScript's `parseInt` |
| `Json` | decoded JSON values, Python and JavaScript truthiness and string conversion, property access |
| `Http` | the Flask request and response as the handlers see them; the upstream call record |
| `Funcoes` | `validar_token`, `get_api_token` and `make_api_request`; the Flask `session` is the field of class `FlaskSession` |
| `FuncionarioRoutes` | the `/api/funcionario` handlers, including local login |
| `ProdutoRoutes` | the `/api/produto` handlers |
| `AuthContext` | the `AuthProvider` state machine and class `AuthProvider` |
| `LoginForm` | the login form's rules and its dispatch to `login` |
| `ClienteForm` | the customer form's mode, computed title, rules, duplicate-CPF check and save; class `ClienteFormView` |
| `FuncionarioForm` | the employee form's rules |
| `Router` | the route table and path matching |

Interfaces that cannot be modelled become parameters:

- The upstream API is a parameter: `api: ApiCall -> ApiResult` for the
  route handlers, and a `Reply` for `make_api_request`.
- The token endpoint is `replies: nat -> Reply`, indexed by attempt number.
- The clock is `now`, in whole seconds.
- The settings `API_ENDPOINT_*`, `LOCAL_USERNAME` and `LOCAL_PASSWORD` are
  string parameters.
- The front end's services are oracles: `Lookup` for the CPF search and
  `service: SaveCall -> SaveReply` for saves.

These functions only compute values: the route handlers, the form rules,
the duplicate-CPF condition and the route table. The code that changes
things step by step is imperative: the `AuthProvider`, the Flask `session`
writes with the two-attempt token loop, and the form's `handleCPF` and
`onSubmit`. Those are methods of classes, proved equal to the specification
functions they sit beside. Navigations, toasts and upstream calls are
recorded as ghost logs.

In these places the model follows the code as written:

- The front-end `login` compares against one hard-coded pair
  ("abc"/"bolinhas"). It does not dispatch to local or employee login.
- `produto.py` reads `Funcoes.PARAMETRO_ID_PRODUTO_OBRIGATORIO`, which
  `Funcoes` does not define. A get-one or delete without `id_produto`
  therefore raises `AttributeError`, and Flask answers 500. It makes no
  upstream call.
- `get_api_token` writes the session keys one at a time. A token reply with
  `access_token` but no `expire_minutes` leaves `access_token` in the
  session. So the session is cleared on failure only when the reply did not
  carry `access_token` (`Funcoes.FetchFailureSession`).
- The customer form computes a `title` from its mode (`ClienteForm.Title`), but nothing renders it: the toolbar heading is the constant "Dados Cliente".
- The login form's `onChange={... setUsername ...}` refers to undefined
  setters. Because the `register(...)` spread comes after it and replaces
  `onChange`, those setters are never called. They do not affect the model.

## Model

| member | source | states |
|---|---|---|
| `Http.AllPresent` | proxy_bff/src/mod_funcionario/funcionario.py:28 | the field check holds exactly when every required field is a key of the body |
| `Funcoes.ExpireSeconds` | proxy_bff/src/funcoes.py:104 | `datetime.now() + timedelta(minutes=v)` as seconds added to now: defined only for a number or boolean whose `timedelta` and resulting date are in Python's range, and the resulting date is then within `datetime.min`..`datetime.max` |
| `Funcoes.FetchToken` | proxy_bff/src/funcoes.py:69-119 | whatever the token endpoint answers, the session left behind never holds a non-numeric `token_validade` |
| `Funcoes.FetchSuccessSession` | proxy_bff/src/funcoes.py:85-108 | a fetch that returns the token JSON leaves exactly `access_token`, `expire_minutes`, `token_type`, `token_validade`; the first three are copied from the reply and the validity is now plus `expire_minutes` minutes |
| `Funcoes.FetchFailureSession` | proxy_bff/src/funcoes.py:72-119 | a failed fetch answers `({'error': ...}, 500)`, leaves no `token_validade`, and leaves the session empty unless the reply carried an `access_token`, which is then what is stored |
| `Funcoes.ExpiryOverflowFails` | proxy_bff/src/funcoes.py:101-119 | an `expire_minutes` beyond `timedelta`'s range makes the fetch answer 500 with `access_token`, `expire_minutes` and `token_type` already stored |
| `Funcoes.Validate` | proxy_bff/src/funcoes.py:11-22 | `validar_token` as a function: the `range(2)` loop that accepts a valid stored token, else fetches and stops on a token; its outcomes are stated by `ValidateOutcome` and `AtMostTwoFetches` |
| `Funcoes.ValidTokenSkipsFetch` | proxy_bff/src/funcoes.py:13-15 | a stored validity later than now gives true with no fetch and the session unchanged |
| `Funcoes.AtMostTwoFetches` | proxy_bff/src/funcoes.py:12-19 | `validar_token` calls `get_api_token` at most twice (at most `2 - attempt` from attempt `attempt` on) |
| `Funcoes.ValidateOutcome` | proxy_bff/src/funcoes.py:11-22 | the answer is true iff the stored token is valid or one of the two fetches returned a token; 0, 1 or 2 fetches in exactly those cases, and the session each case leaves |
| `Funcoes.ValidateKeepsValidSession` | proxy_bff/src/funcoes.py:13-18 | validation keeps the session well-formed for every sequence of token replies |
| `Funcoes.ApiRequest` | proxy_bff/src/funcoes.py:25-64 | `make_api_request` as written, as a function of the starting session: validate, check the stored token, then send and map the reply with `MapReplyAsWritten`; its exits are stated by `ApiRequestExits` |
| `Funcoes.ApiRequestExits` | proxy_bff/src/funcoes.py:25-53 | no token gives `(error, 500)` and no token in the session gives `(error, 401)`, both without a request; the request is sent exactly when neither applies, and its reply is then mapped |
| `Funcoes.UpstreamErrorAnswered500` | proxy_bff/src/funcoes.py:55-59 | as written, a request that is sent and answered with any 4xx/5xx status is reported as `({'error': ...}, 500)` |
| `Funcoes.FreshTokenIsSent` | proxy_bff/src/funcoes.py:18-32 | after a successful first fetch the request goes out exactly when the fetched token is truthy |
| `Funcoes.MapReply` | proxy_bff/src/funcoes.py:41-64 | the reply mapping with the HTTP-error status passed on (the corrected line 56); stated by `MapReplyStatus` |
| `Funcoes.MapReplyAsWritten` | proxy_bff/src/funcoes.py:41-64 | the reply mapping as written, where `e.response` is falsy for every error status; stated by `HttpErrorStatusLostAsWritten` and `MapReplyAsWrittenAgreesElsewhere` |
| `Funcoes.MapReplyStatus` | proxy_bff/src/funcoes.py:41-64 | the status is always returned; 200/201 give the parsed JSON or `{}`; 204 and other non-error statuses give `{}`; an HTTP error keeps its status (corrected mapping); an unreachable API gives 500 |
| `Funcoes.HttpErrorStatusLostAsWritten` | proxy_bff/src/funcoes.py:55-59 | as written, every upstream 4xx/5xx is reported as 500, which differs from the corrected mapping for every status but 500 |
| `Funcoes.MapReplyAsWrittenAgreesElsewhere` | proxy_bff/src/funcoes.py:43-64 | the written and corrected mappings agree on every reply that is not an HTTP error |
| `Funcoes.FlaskSession.GetApiToken` | proxy_bff/src/funcoes.py:69-119 | the step-by-step session writes give the result and session `FetchToken` specifies, keeping the session well-formed |
| `Funcoes.FlaskSession.ValidarToken` | proxy_bff/src/funcoes.py:11-22 | the two-attempt loop gives the answer, session and fetch count `Validate` specifies |
| `Funcoes.FlaskSession.MakeApiRequest` | proxy_bff/src/funcoes.py:25-64 | the result and new session are those of `ApiRequest`, which follows the code as written (an upstream HTTP error becomes 500), and the upstream call is logged exactly when it is sent |
| `FuncionarioRoutes.GetFuncionarios` | proxy_bff/src/mod_funcionario/funcionario.py:8-11 | exactly one GET to the endpoint, answered with the upstream body and status unchanged |
| `FuncionarioRoutes.GetFuncionario` | proxy_bff/src/mod_funcionario/funcionario.py:13-19 | no upstream call iff `id_funcionario` is missing or empty, then 400 with the message; otherwise one GET to endpoint + id, answered with the upstream body and status unchanged |
| `FuncionarioRoutes.DeleteFuncionario` | proxy_bff/src/mod_funcionario/funcionario.py:65-71 | no upstream call iff `id_funcionario` is missing or empty, then 400; otherwise one DELETE to endpoint + id, answered with the upstream body and status unchanged |
| `FuncionarioRoutes.ValidateCpf` | proxy_bff/src/mod_funcionario/funcionario.py:73-79 | no upstream call iff `cpf` is missing or empty, then 400; otherwise one GET to endpoint + "cpf/" + cpf, answered with the upstream body and status unchanged |
| `FuncionarioRoutes.WrapFailure` | proxy_bff/src/mod_funcionario/funcionario.py:39-42 | the create/update answer: 200/201 unchanged, any other status with `{'error', 'details'}`; stated by `StatusPassThrough` |
| `FuncionarioRoutes.CreateFuncionario` | proxy_bff/src/mod_funcionario/funcionario.py:21-42 | `create_funcionario`: JSON check, six required fields, one POST; stated by `CreateRequiresFields` and `CreateUpdateAnswers` |
| `FuncionarioRoutes.UpdateFuncionario` | proxy_bff/src/mod_funcionario/funcionario.py:44-63 | `update_funcionario`: JSON check, seven required fields, one PUT to endpoint + str(id); stated by `UpdateRequiresIdAndTargetsIt` and `CreateUpdateAnswers` |
| `FuncionarioRoutes.ValidarLogin` | proxy_bff/src/mod_funcionario/funcionario.py:81-99 | `validar_login`: 400 for a non-JSON body or a missing `cpf`/`senha`, otherwise forwards exactly `cpf` and `senha` to endpoint + "login/" and answers with the upstream result; stated by `LoginForwardsOnlyCredentials` |
| `FuncionarioRoutes.LoginLocal` | proxy_bff/src/mod_funcionario/funcionario.py:101-129 | `login_local`: 400 for a non-JSON body or a missing field, 500 for a non-string username, 400 without the '@' prefix, then one '@' stripped and the local pair checked; stated by `LocalLoginRefusals`, `LocalLoginNeedsPrefix`, `LocalLoginIff` and `LocalLoginStripsOneAt` |
| `FuncionarioRoutes.CreateRequiresFields` | proxy_bff/src/mod_funcionario/funcionario.py:21-37 | create calls the API iff the body is JSON with all six fields, and then posts the whole body once; otherwise 400 |
| `FuncionarioRoutes.UpdateRequiresIdAndTargetsIt` | proxy_bff/src/mod_funcionario/funcionario.py:44-58 | update calls the API iff the body is JSON with `id_funcionario` and the six fields, then one PUT of the body to endpoint + str(id); otherwise 400 |
| `FuncionarioRoutes.UpdateNeedsMoreThanCreate` | proxy_bff/src/mod_funcionario/funcionario.py:27-51 | a body missing only `id_funcionario` is accepted by create and refused by update |
| `FuncionarioRoutes.UpdateTargetsDistinctRecords` | proxy_bff/src/mod_funcionario/funcionario.py:56 | updates with different numeric ids target different URLs, and the URL suffix reads back as the id |
| `FuncionarioRoutes.StatusPassThrough` | proxy_bff/src/mod_funcionario/funcionario.py:39-42 | 200/201 pass the body through; any other status is kept and the body wrapped as `{'error': failure, 'details': body}` |
| `FuncionarioRoutes.CreateUpdateAnswers` | proxy_bff/src/mod_funcionario/funcionario.py:39-63 | create and update answer with the wrapped result of their one upstream call |
| `FuncionarioRoutes.LoginForwardsOnlyCredentials` | proxy_bff/src/mod_funcionario/funcionario.py:81-99 | login calls the API iff the JSON body has `cpf` and `senha`, and forwards an object with exactly those two members to endpoint + "login/", answering with the upstream result; a non-JSON body or a missing member gets 400 with its message |
| `FuncionarioRoutes.LocalLoginRefusals` | proxy_bff/src/mod_funcionario/funcionario.py:107-118 | a non-JSON body gets 400, a body missing `username` or `senha` gets 400 naming the fields, and a non-string username makes `startswith` raise, so Flask answers 500 |
| `FuncionarioRoutes.LocalLoginNeedsPrefix` | proxy_bff/src/mod_funcionario/funcionario.py:115-119 | a string username is refused with 400 iff it does not start with '@' |
| `FuncionarioRoutes.LocalLoginIff` | proxy_bff/src/mod_funcionario/funcionario.py:121-129 | with the prefix, 200 with group "administrador" iff the username is '@' + the local user and the password is the local password; otherwise 401 |
| `FuncionarioRoutes.LocalLoginStripsOneAt` | proxy_bff/src/mod_funcionario/funcionario.py:121-123 | only one '@' is stripped: "@@x" is the local user "@x", not "x" |
| `ProdutoRoutes.GetProdutos` | proxy_bff/src/mod_produto/produto.py:12-17 | `get_produtos`: exactly one GET to the endpoint, answered with the upstream body and status unchanged |
| `ProdutoRoutes.GetProduto` | proxy_bff/src/mod_produto/produto.py:21-31 | `get_produto`: the undefined constant raises on a missing id, otherwise one GET to endpoint + id; stated by `IdRequiredForOneAndDelete` |
| `ProdutoRoutes.DeleteProduto` | proxy_bff/src/mod_produto/produto.py:35-46 | `delete_produto`: as `get_produto`, with DELETE; stated by `IdRequiredForOneAndDelete` |
| `ProdutoRoutes.CreateProduto` | proxy_bff/src/mod_produto/produto.py:50-59 | `create_produto`: 400 for a non-JSON body or a missing field, otherwise one POST of the body; stated by `BodyValidation` |
| `ProdutoRoutes.UpdateProduto` | proxy_bff/src/mod_produto/produto.py:63-72 | `update_produto`: 400 for a non-JSON body or a missing field, otherwise one PUT of the body to endpoint + str(id); stated by `BodyValidation` and `UpdateNeedsMoreThanCreate` |
| `ProdutoRoutes.AllRoutesPassThrough` | proxy_bff/src/mod_produto/produto.py:12-72 | every product route makes at most one upstream call and answers with its body and status unchanged |
| `ProdutoRoutes.IdRequiredForOneAndDelete` | proxy_bff/src/mod_produto/produto.py:21-46 | get-one and delete call the API iff `id_produto` is present and non-empty, targeting endpoint + id; otherwise Flask's 500 from the undefined message constant |
| `ProdutoRoutes.BodyValidation` | proxy_bff/src/mod_produto/produto.py:49-72 | a non-JSON body gives 400 first; a JSON body missing a required field gives 400 naming the fields; every refusal is a 400 with no call; create and update call the API iff all their fields are present, posting to the endpoint or putting to endpoint + str(id) |
| `ProdutoRoutes.UpdateNeedsMoreThanCreate` | proxy_bff/src/mod_produto/produto.py:55-68 | every body that update accepts is accepted by create; a JSON body without `id_produto` never reaches the API through update |
| `AuthContext.Initial` | frontend/src/context/AuthContext.jsx:13-15 | the state a mounted provider starts from; stated by `InitialAuthenticatedIff` |
| `AuthContext.LoginStep` | frontend/src/context/AuthContext.jsx:21-30 | the effect of `login`; stated by `LoginOutcome` and `LoginLogoutRoundTrip` |
| `AuthContext.LogoutStep` | frontend/src/context/AuthContext.jsx:33-38 | the effect of `logout`; stated by `LogoutOutcome` |
| `AuthContext.InitialAuthenticatedIff` | frontend/src/context/AuthContext.jsx:13-15 | a fresh provider is authenticated iff the stored `loginRealizado` is the string "true" |
| `AuthContext.LoginOutcome` | frontend/src/context/AuthContext.jsx:21-30 | login navigates to /home iff the pair is ("abc", "bolinhas"), then sets the flag and stores "true"; otherwise flag, storage and navigations are unchanged; one toast either way |
| `AuthContext.LogoutOutcome` | frontend/src/context/AuthContext.jsx:33-38 | logout clears the flag, removes the key and navigates to /login; a second logout leaves flag and storage as the first |
| `AuthContext.LoginLogoutRoundTrip` | frontend/src/context/AuthContext.jsx:24-35 | login then logout only removes the key, so a storage without it is restored |
| `AuthContext.OnlyLoginKeyTouched` | frontend/src/context/AuthContext.jsx:24-35 | no other storage key is added, removed or changed |
| `AuthContext.TransitionsKeepConsistency` | frontend/src/context/AuthContext.jsx:13-38 | both transitions keep the flag equal to what a reload reads back |
| `AuthContext.AuthProvider.constructor` | frontend/src/context/AuthContext.jsx:13-15 | mounting derives the flag from the storage, consistently |
| `AuthContext.AuthProvider.Login` | frontend/src/context/AuthContext.jsx:21-30 | the new state is `LoginStep` of the old one, and consistency is kept |
| `AuthContext.AuthProvider.Logout` | frontend/src/context/AuthContext.jsx:33-38 | the new state is `LogoutStep` of the old one, and consistent |
| `LoginForm.Errors` | frontend/src/pages/LoginForm.jsx:35-42 | the `register` rules of both fields; stated by `FieldRules` |
| `LoginForm.Submit` | frontend/src/pages/LoginForm.jsx:20-23 | `handleSubmit(onSubmit)`: the rules, then one `login(username, password)`; stated by `SubmitDispatch` |
| `LoginForm.SubmitTo` | frontend/src/pages/LoginForm.jsx:20-23 | a submit applied to the provider's state; stated by `SubmitAuthenticatesIff` |
| `LoginForm.FieldRules` | frontend/src/pages/LoginForm.jsx:36-42 | each message appears exactly when its rule fails: empty username, empty password, password of 1-5 characters; no errors iff both rules pass |
| `LoginForm.SubmitDispatch` | frontend/src/pages/LoginForm.jsx:20-27 | a valid form calls `login` with the pair unchanged; an invalid one shows its errors and never calls it |
| `LoginForm.SubmitAuthenticatesIff` | frontend/src/pages/LoginForm.jsx:20-27 | submitting the form navigates to /home iff the pair is the accepted one; a blocked form changes nothing |
| `FuncionarioForm.Rule` | frontend/src/pages/FuncionarioForm.jsx:23-79 | the first failing rule of one field, by name; stated by `FieldRules` |
| `FuncionarioForm.Collect` | frontend/src/pages/FuncionarioForm.jsx:23-79 | the errors of the named fields, in order; stated by `CollectExactly` |
| `FuncionarioForm.Errors` | frontend/src/pages/FuncionarioForm.jsx:15-79 | the errors of the whole form; stated by `ErrorsEmptyIff` |
| `FuncionarioForm.Submit` | frontend/src/pages/FuncionarioForm.jsx:10-15 | `handleSubmit(onSubmit)`; stated by `SubmitOnlyLogs` |
| `FuncionarioForm.CollectExactly` | frontend/src/pages/FuncionarioForm.jsx:23-79 | the error list holds an entry for a field iff that field's rule fails, with that rule's message |
| `FuncionarioForm.FieldRules` | frontend/src/pages/FuncionarioForm.jsx:23-79 | nome, cpf, matricula, telefone and grupo fail only when empty; senha fails when shorter than 6 |
| `FuncionarioForm.ErrorsEmptyIff` | frontend/src/pages/FuncionarioForm.jsx:15-79 | the form passes iff all five fields are non-empty and senha has at least 6 characters |
| `FuncionarioForm.OfferedGroupsPass` | frontend/src/pages/FuncionarioForm.jsx:79-88 | each of "admin", "gerente", "funcionario" passes the grupo rule, so no grupo error is shown |
| `FuncionarioForm.LoggedGrupoOffered` | frontend/src/pages/FuncionarioForm.jsx:79-88 | when `grupo` is a select-box value (one of the three options or nothing chosen), a submit that goes through logs one of "admin", "gerente", "funcionario" |
| `FuncionarioForm.SubmitOnlyLogs` | frontend/src/pages/FuncionarioForm.jsx:10-15 | a submit either shows errors or logs exactly the entered data |
| `ClienteForm.Title` | frontend/src/pages/ClienteForm.jsx:68-75 | the `title` variable of lines 68-75, which nothing renders (the toolbar shows the constant "Dados Cliente"); stated by `TitleShowsMode` |
| `ClienteForm.SubmitLabel` | frontend/src/pages/ClienteForm.jsx:200-201 | the submit button's label, absent in view mode; stated by `LabelMatchesCall` |
| `ClienteForm.Errors` | frontend/src/pages/ClienteForm.jsx:127-174 | the three fields' rules; stated by `FieldRules` |
| `ClienteForm.ShowsPrompt` | frontend/src/pages/ClienteForm.jsx:49-59 | the duplicate-prompt condition; stated by `PromptConditions` and `OwnRecordNoPrompt` |
| `ClienteForm.CheckCpf` | frontend/src/pages/ClienteForm.jsx:45-61 | `handleCPF`'s outcome; stated by `LookupSkipped` and `PromptConditions` |
| `ClienteForm.ClickAsWritten` | frontend/src/pages/ClienteForm.jsx:24-30 | the prompt buttons as written; stated by `CancelThrowsAsWritten` |
| `ClienteForm.ClickPrompt` | frontend/src/pages/ClienteForm.jsx:24-30 | the prompt buttons with "Cancelar" corrected to the fourth callback; stated by `PromptAlwaysNavigates` |
| `ClienteForm.SaveResult` | frontend/src/pages/ClienteForm.jsx:99-105 | how a save reply ends `onSubmit`; stated by `SaveSucceedsIff` and `SaveErrorMessage` |
| `ClienteForm.SubmitWith` | frontend/src/pages/ClienteForm.jsx:90-107 | `handleSubmit(onSubmit)` with the save service's answer; stated by `SubmitChoosesOne` |
| `ClienteForm.TitleShowsMode` | frontend/src/pages/ClienteForm.jsx:68-75 | the computed `title` starts "Visualizar Cliente: " iff view mode, "Editar Cliente: " iff an id outside view mode, and is "Novo Cliente" otherwise; the id can be read back from it |
| `ClienteForm.LabelMatchesCall` | frontend/src/pages/ClienteForm.jsx:200-201 | the button says "Atualizar" exactly when the submit would update, and is absent iff the form is read-only |
| `ClienteForm.FieldRules` | frontend/src/pages/ClienteForm.jsx:127-174 | nome is required with at most 100 characters; cpf and telefone are required; no errors iff all pass |
| `ClienteForm.LookupSkipped` | frontend/src/pages/ClienteForm.jsx:45-61 | the lookup is skipped iff the CPF is empty or the mode is view; a conflict arises iff the lookup returned and the prompt condition holds |
| `ClienteForm.PromptConditions` | frontend/src/pages/ClienteForm.jsx:49-59 | the prompt shows iff the record found is truthy with a truthy `id_cliente`, and the form has no id or `parseInt(id)` differs from that `id_cliente`; it carries that record |
| `ClienteForm.OwnRecordNoPrompt` | frontend/src/pages/ClienteForm.jsx:54 | editing the record whose numeric `id_cliente` is the route id never prompts for that record |
| `ClienteForm.EditLinkOpensRecord` | frontend/src/pages/ClienteForm.jsx:56 | the edit link resolves to the guarded customer form with `opr` "edit" and the record's id, where the same record does not prompt again |
| `ClienteForm.ViewLinkOpensRecord` | frontend/src/pages/ClienteForm.jsx:57 | the view link resolves to the guarded customer form with `opr` "view" and the record's id |
| `ClienteForm.CancelThrowsAsWritten` | frontend/src/pages/ClienteForm.jsx:30 | as written, "Cancelar" throws a ReferenceError; corrected, it goes to /clientes; the other buttons are the same in both |
| `ClienteForm.PromptAlwaysNavigates` | frontend/src/pages/ClienteForm.jsx:24-30 | every corrected prompt button navigates: edit and view to the record's pages |
| `ClienteForm.SubmitChoosesOne` | frontend/src/pages/ClienteForm.jsx:90-97 | a valid submit makes one call: update with the route id iff there is one, create otherwise, with the entered data |
| `ClienteForm.SaveSucceedsIff` | frontend/src/pages/ClienteForm.jsx:99-105 | the save succeeds iff the service returned a truthy body with a truthy `id`; a thrown error is reported with its message |
| `ClienteForm.SaveErrorMessage` | frontend/src/pages/ClienteForm.jsx:99-100 | a non-null reply without an id reports its `erro` when that is truthy, and "Erro ao salvar cliente." when `erro` is absent or falsy |
| `ClienteForm.ClienteFormView.HandleCpf` | frontend/src/pages/ClienteForm.jsx:45-66 | the step-by-step check gives `CheckCpf`'s outcome, looks up only when not skipped, and shows the prompt or error toast |
| `ClienteForm.ClienteFormView.ClickPromptButton` | frontend/src/pages/ClienteForm.jsx:24-30 | a prompt click does what `ClickAsWritten` says: "Editar" and "Visualizar" navigate to the record's pages, "Cancelar" throws and navigates nowhere |
| `ClienteForm.ClienteFormView.Cancel` | frontend/src/pages/ClienteForm.jsx:199 | the form's cancel button navigates to /clientes |
| `ClienteForm.ClienteFormView.Submit` | frontend/src/pages/ClienteForm.jsx:90-107 | the submit gives `SubmitWith`'s outcome, logs one save call when valid, navigates to /clientes only on success, and shows one toast |
| `Base.JsParseInt` | frontend/src/pages/ClienteForm.jsx:54 | ECMAScript `parseInt(id)`: leading white space, a sign, an optional 0x prefix, the longest digit prefix, NaN (None) when it is empty; stated by `ParseIntOfDecimal` |
| `Base.ParseIntOfDecimal` | frontend/src/pages/ClienteForm.jsx:54 | `parseInt` reads back the decimal text of every integer |
| `Router.Table` | frontend/src/routes/Router.jsx:26-40 | the explicit routes in source order, with their guards; stated by `AtMostOneRoute` and `GuardedRoutes` |
| `Router.Resolve` | frontend/src/routes/Router.jsx:25-41 | the page a path shows; stated by `ResolveIsTheMatch`, `NotFoundIffNoMatch` and the per-path lemmas |
| `Router.JoinSplit` | frontend/src/routes/Router.jsx:25-41 | joining a path's segments with '/' gives the path back |
| `Router.PiecesRebuildPath` | frontend/src/routes/Router.jsx:25-41 | the segments a path is matched on, joined with '/' after a leading '/', are the path less its trailing slashes |
| `Router.SplitJoin` | frontend/src/routes/Router.jsx:25-41 | splitting undoes joining for segments without '/' |
| `Router.AtMostOneRoute` | frontend/src/routes/Router.jsx:26-40 | no segment list matches two explicit patterns of the table |
| `Router.ResolveIsTheMatch` | frontend/src/routes/Router.jsx:25-41 | a path resolves to the one route it matches, whatever that route's place in the table |
| `Router.NotFoundIffNoMatch` | frontend/src/routes/Router.jsx:41 | NotFound is shown iff no explicit pattern matches |
| `Router.RootRedirectsToLogin` | frontend/src/routes/Router.jsx:26-27 | "/" redirects to "/login", which shows the login page unguarded |
| `Router.HomeIsGuarded` | frontend/src/routes/Router.jsx:28 | "/home" shows Home behind the guard |
| `Router.FuncionarioListUnguarded` | frontend/src/routes/Router.jsx:29 | "/funcionarios" is unguarded |
| `Router.FuncionarioNewFormUnguarded` | frontend/src/routes/Router.jsx:30 | "/funcionario" is unguarded |
| `Router.ClienteListUnguarded` | frontend/src/routes/Router.jsx:31 | "/clientes" is unguarded |
| `Router.ClienteNewFormUnguarded` | frontend/src/routes/Router.jsx:32 | "/cliente" is unguarded |
| `Router.ProdutoListUnguarded` | frontend/src/routes/Router.jsx:33 | "/produtos" is unguarded |
| `Router.ProdutoNewFormUnguarded` | frontend/src/routes/Router.jsx:34 | "/produto" is unguarded |
| `Router.ResolveRecordPath` | frontend/src/routes/Router.jsx:36-40 | `/{funcionario,cliente,produto}/:opr/:id` shows that form behind the guard, binding the second and third segments to `opr` and `id` |
| `Router.GuardedRoutes` | frontend/src/routes/Router.jsx:26-41 | a resolved page is guarded iff it is Home or a record page with `opr` bound |

## Left out

- Floating-point time: `datetime.timestamp` is whole seconds (`now`), and one call reads the clock once.
- JSON numbers are integers only. JavaScript writes a number of magnitude 1e21 or more in exponent notation, while `JsStr` writes every integer in plain decimal. So for such ids, `${id}` in the edit and view links and in the toasts differs from the model.
- `Funcoes.ExpireSeconds`: the `datetime.min`/`datetime.max` bounds are taken with local time as UTC. A platform whose `datetime.timestamp` fails on naive times near those bounds is not modelled.
- `str()` of a list or dict in a URL is a placeholder, not Python's repr.
- Error message texts are modelled only by their fixed prefix. This covers the `e`, `e.response.text` and token-data parts of the proxy's messages.
- Logging, `jsonify` formatting, request headers and the SSL flag are left out.
- The `params=` argument of `make_api_request` is left out: no core route passes it.
- Request bodies are JSON objects. The handlers' behaviour on a JSON array or scalar body is not modelled, and neither is Flask's own 400 for malformed JSON.
- `Funcoes.FlaskSession.ValidarToken`: requires a session whose `token_validade`, if present, is a number. Only `get_api_token` writes that key, so this holds in every session the proxy itself produces.
- `Funcoes.FlaskSession.MakeApiRequest`: requires the same well-formed session, for the same reason: only `get_api_token` writes `token_validade`.
- `FuncionarioForm.OfferedGroupsPass`: the `grupo` rule is only `required`; that `grupo` is one of the three options comes from the select box. The model's `grupo` is any string, and `FuncionarioForm.LoggedGrupoOffered` assumes a select-box value.
- Flask's session signing and the cookie round-trip are left out.
- Concurrency between requests sharing a session is left out.
- React mechanics are left out: re-rendering, async ordering of `handleCPF`/`onSubmit` against later input, toast dismissal and the Suspense fallback. Toasts and navigations are recorded only as ghost logs.
- The customer form's `useEffect` fetch and `reset(data)` of an existing record are left out, as asynchronous loading.
- The `inputProps` length cap of the nome field is left out. The model keeps the rule check on any length.
- The IMask masks (CPF, telephone, matrícula) are left out. A rule judges the unmasked value: `required` is non-empty and `minLength` is a length in characters, not UTF-16 units.
- `parseInt` works on unbounded integers: a very long id would lose precision in JavaScript.
- Route matching is case-sensitive here. Percent-decoding of parameters and route ranking are left out: ranking is irrelevant because `Router.AtMostOneRoute` shows every path matches at most one explicit pattern.
- What `PrivateRoute` does with an unauthenticated visitor is not part of this model. The guard is a flag on the route.
- The CPF lookup's result is taken as given (`response.data[0]` or undefined). A lookup that fails inside the service counts as a thrown lookup.
- `ProdutoForm.jsx`, the list pages, `Home`, `Navbar`, `NotFound`, `App` and the axios service modules are not part of this model.

## Findings

| source | as written | input that shows it | evidently intended | confidence | as-written member | corrected member |
|---|---|---|---|---|---|---|
| proxy_bff/src/funcoes.py:56 | `e.response.status_code if e.response else 500`; a requests `Response` is falsy for every status of 400 or more, and only such statuses raise `HTTPError` | the upstream API answers 404 | pass the upstream status through (404), as the line's own fallback structure suggests | high, not executed | `Funcoes.HttpErrorStatusLostAsWritten` | `Funcoes.MapReplyStatus` |
| frontend/src/pages/ClienteForm.jsx:30 | the "Cancelar" button calls `onCancel`, which `showCPFExistenteToast` (line 17) does not declare, while the caller passes a fourth callback `navigate('/clientes')` (line 58) | click "Cancelar" on the duplicate-CPF prompt | dismiss the prompt and go to /clientes | high, not executed | `ClienteForm.CancelThrowsAsWritten` | `ClienteForm.PromptAlwaysNavigates` |

The class methods `Funcoes.FlaskSession.MakeApiRequest` and `ClienteForm.ClienteFormView.ClickPromptButton` follow the code as written: an upstream HTTP error is answered with 500, and "Cancelar" throws without navigating. The corrected definitions, `Funcoes.MapReply` and `ClienteForm.ClickPrompt`, are stated and proved beside them, and are what these methods become once the two lines are fixed.
