/** The proxy's token handling and upstream request helper
    (`Funcoes.validar_token`, `get_api_token`, `make_api_request`).
    The Flask `session` dictionary is the field `data` of a `FlaskSession`;
    the token endpoint and the upstream API are oracle replies, and the clock
    is the parameter `now`, in whole seconds. */
module Funcoes {
  import opened Base
  import opened Json
  import opened Http

  const AccessToken := "access_token"
  const ExpireMinutes := "expire_minutes"
  const TokenType := "token_type"
  const TokenValidade := "token_validade"

  const TokenHttpErrorMessage := "Erro HTTP"
  const TokenUnexpectedMessage := "Erro inesperado ao obter token"
  const TokenFailedMessage := "Falha ao obter token de autenticação"
  const TokenMissingMessage := "Token de autenticação não encontrado na sessão"
  const UpstreamHttpErrorMessage := "Erro HTTP"
  const UpstreamUnreachableMessage := "Erro de conexão/requisição com a API externa"

  /** What `get_api_token` returns: the token JSON, or `({'error': msg}, 500)`. */
  datatype TokenResult = TokenOk(tokenData: map<string, JsonValue>) | TokenError(error: ApiResult)

  /** One run of `get_api_token`: its result and the session it leaves. */
  datatype Fetch = Fetch(result: TokenResult, session: map<string, JsonValue>)

  /** One run of `validar_token`: its answer, the session it leaves and how
      many times it called `get_api_token`. */
  datatype Validation = Validation(ok: bool, session: map<string, JsonValue>, fetches: nat)

  /** One run of `make_api_request`: its `(body, status)`, the session it
      leaves, and whether the upstream request was sent. */
  datatype Run = Run(result: ApiResult, session: map<string, JsonValue>, sent: bool)

  /** `raise_for_status` raises exactly for the client and server error codes. */
  predicate IsHttpError(status: int)
  {
    400 <= status < 600
  }

  /** Only `get_api_token` writes `token_validade`, always as a number. */
  predicate ValidSession(s: map<string, JsonValue>)
  {
    TokenValidade in s ==> s[TokenValidade].JNum?
  }

  /** `'token_validade' in session and session['token_validade'] > now`. */
  predicate TokenValid(s: map<string, JsonValue>, now: int)
  {
    TokenValidade in s && s[TokenValidade].JNum? && s[TokenValidade].n > now
  }

  /** `timedelta` holds at most 999999999 days either way. */
  const TimedeltaMaxDays := 999999999
  const MinutesPerDay := 1440
  /** `datetime.min` and `datetime.max` as POSIX timestamps in whole seconds,
      taking local time to be UTC. */
  const DatetimeMinTimestamp := -62135596800
  const DatetimeMaxTimestamp := 253402300799

  /** `timedelta(minutes=m)` does not raise OverflowError: its whole days,
      rounded down, stay within the limit. */
  predicate TimedeltaFits(m: int)
  {
    -TimedeltaMaxDays <= m / MinutesPerDay <= TimedeltaMaxDays
  }

  /** `datetime.now() + timedelta(minutes=v)` as seconds added to `now`.
      None where Python raises: TypeError for a value that is not a number,
      OverflowError when the `timedelta` or the resulting date is out of
      range. A boolean counts as the integer 0 or 1, as in Python. */
  function ExpireSeconds(v: JsonValue, now: int): (r: Option<int>)
    ensures r.Some? ==> DatetimeMinTimestamp <= now + r.value <= DatetimeMaxTimestamp
    ensures r.Some? ==> (v.JNum? && r.value == 60 * v.n) || (v.JBool? && r.value == (if v.b then 60 else 0))
  {
    var minutes := match v
      case JNum(m) => Some(m)
      case JBool(b) => Some(if b then 1 else 0)
      case _ => None;
    if minutes.None? || !TimedeltaFits(minutes.value) then None
    else if !(DatetimeMinTimestamp <= now + 60 * minutes.value <= DatetimeMaxTimestamp) then None
    else Some(60 * minutes.value)
  }

  function TokenFailure(msg: string): TokenResult
  {
    TokenError(ApiResult(ErrorBody(msg), 500))
  }

  /** `get_api_token`: clear the session, ask the token endpoint, then store
      `access_token`, `expire_minutes`, `token_type` and `token_validade` one
      after the other. Any exception on the way is caught and yields
      `({'error': ...}, 500)`, keeping whatever had been stored by then. */
  function FetchToken(reply: Reply, now: int): (f: Fetch)
    ensures ValidSession(f.session)
  {
    match reply
    case Unreachable => Fetch(TokenFailure(TokenUnexpectedMessage), map[])
    case Answered(status, body) =>
      if IsHttpError(status) then Fetch(TokenFailure(TokenHttpErrorMessage), map[])
      else if body.None? || !body.value.JObj? then Fetch(TokenFailure(TokenUnexpectedMessage), map[])
      else
        var d := body.value.fields;
        if AccessToken !in d then Fetch(TokenFailure(TokenUnexpectedMessage), map[])
        else
          var s1 := map[AccessToken := d[AccessToken]];
          if ExpireMinutes !in d then Fetch(TokenFailure(TokenUnexpectedMessage), s1)
          else
            var s2 := s1[ExpireMinutes := d[ExpireMinutes]];
            if TokenType !in d then Fetch(TokenFailure(TokenUnexpectedMessage), s2)
            else
              var s3 := s2[TokenType := d[TokenType]];
              match ExpireSeconds(d[ExpireMinutes], now)
              case None => Fetch(TokenFailure(TokenUnexpectedMessage), s3)
              case Some(secs) => Fetch(TokenOk(d), s3[TokenValidade := JNum(now + secs)])
  }

  /** `'access_token' in Funcoes.get_api_token()`: true for the token JSON,
      false for the error tuple. */
  predicate GotAccessToken(r: TokenResult)
  {
    r.TokenOk? && AccessToken in r.tokenData
  }

  /** `validar_token` from attempt `attempt` of `range(2)` on. */
  function Validate(s: map<string, JsonValue>, now: int, replies: nat -> Reply, attempt: nat): Validation
    decreases 2 - attempt
  {
    if attempt >= 2 then Validation(false, s, 0)
    else if TokenValid(s, now) then Validation(true, s, 0)
    else
      var f := FetchToken(replies(attempt), now);
      if GotAccessToken(f.result) then Validation(true, f.session, 1)
      else
        var v := Validate(f.session, now, replies, attempt + 1);
        Validation(v.ok, v.session, v.fetches + 1)
  }

  /** What `make_api_request` makes of the upstream reply, with the
      status of an HTTP error passed on (see `MapReplyAsWritten`). */
  function MapReply(reply: Reply): ApiResult
  {
    match reply
    case Unreachable => ApiResult(ErrorBody(UpstreamUnreachableMessage), 500)
    case Answered(status, body) =>
      if IsHttpError(status) then ApiResult(ErrorBody(UpstreamHttpErrorMessage), status)
      else if status == 200 || status == 201 then
        ApiResult(if body.Some? then body.value else JObj(map[]), status)
      else ApiResult(JObj(map[]), status)
  }

  /** The HTTP-error branch as the source writes it:
      `e.response.status_code if e.response else 500`. A requests `Response`
      is falsy when its status is 400 or more, so this is always 500. */
  function MapReplyAsWritten(reply: Reply): ApiResult
  {
    match reply
    case Unreachable => ApiResult(ErrorBody(UpstreamUnreachableMessage), 500)
    case Answered(status, body) =>
      if IsHttpError(status) then
        var responseTruthy := status < 400;
        ApiResult(ErrorBody(UpstreamHttpErrorMessage), if responseTruthy then status else 500)
      else MapReply(reply)
  }

  /** `make_api_request(method, url, data)` as written, as a function of the
      session it starts from. */
  function ApiRequest(s: map<string, JsonValue>, now: int, tokenReplies: nat -> Reply, upstream: Reply): Run
  {
    var v := Validate(s, now, tokenReplies, 0);
    if !v.ok then Run(ApiResult(ErrorBody(TokenFailedMessage), 500), v.session, false)
    else if AccessToken !in v.session || !PyTruthy(v.session[AccessToken]) then
      Run(ApiResult(ErrorBody(TokenMissingMessage), 401), v.session, false)
    else Run(MapReplyAsWritten(upstream), v.session, true)
  }

  // ---------------------------------------------------------------------
  // Properties of get_api_token

  /** A fetch that found a token leaves exactly the four token keys, and the
      token stays valid for `expire_minutes` minutes from now. */
  lemma FetchSuccessSession(reply: Reply, now: int)
    requires FetchToken(reply, now).result.TokenOk?
    ensures var f := FetchToken(reply, now);
      var d := f.result.tokenData;
      && reply.Answered? && !IsHttpError(reply.status)
      && reply.body == Some(JObj(d))
      && f.session.Keys == {AccessToken, ExpireMinutes, TokenType, TokenValidade}
      && f.session[AccessToken] == d[AccessToken]
      && f.session[ExpireMinutes] == d[ExpireMinutes]
      && f.session[TokenType] == d[TokenType]
      && ExpireSeconds(d[ExpireMinutes], now).Some?
      && f.session[TokenValidade] == JNum(now + ExpireSeconds(d[ExpireMinutes], now).value)
  {
  }

  /** A failed fetch answers `({'error': ...}, 500)`, never leaves a validity
      time behind, and leaves the session cleared unless the reply did carry
      an `access_token`. */
  lemma FetchFailureSession(reply: Reply, now: int)
    requires !FetchToken(reply, now).result.TokenOk?
    ensures var f := FetchToken(reply, now);
      && f.result.error.status == 500
      && f.result.error.body.JObj? && "error" in f.result.error.body.fields
      && TokenValidade !in f.session
      && f.session.Keys <= {AccessToken, ExpireMinutes, TokenType}
      && (f.session != map[] ==>
            reply.Answered? && reply.body.Some? && reply.body.value.JObj?
            && AccessToken in reply.body.value.fields
            && f.session[AccessToken] == reply.body.value.fields[AccessToken])
  {
  }

  /** An `expire_minutes` too large for `timedelta` makes the fetch fail with
      500 after `access_token`, `expire_minutes` and `token_type` were stored. */
  lemma ExpiryOverflowFails(d: map<string, JsonValue>, now: int, status: int, m: int)
    requires !IsHttpError(status)
    requires AccessToken in d && ExpireMinutes in d && TokenType in d
    requires d[ExpireMinutes] == JNum(m) && m > MinutesPerDay * (TimedeltaMaxDays + 1)
    ensures var f := FetchToken(Answered(status, Some(JObj(d))), now);
      && f.result == TokenFailure(TokenUnexpectedMessage)
      && f.session == map[AccessToken := d[AccessToken], ExpireMinutes := JNum(m), TokenType := d[TokenType]]
  {
    assert m / MinutesPerDay > TimedeltaMaxDays;
  }

  // ---------------------------------------------------------------------
  // Properties of validar_token

  /** A token still valid now is accepted without any fetch. */
  lemma ValidTokenSkipsFetch(s: map<string, JsonValue>, now: int, replies: nat -> Reply)
    requires TokenValid(s, now)
    ensures Validate(s, now, replies, 0) == Validation(true, s, 0)
  {
  }

  /** `validar_token` calls `get_api_token` at most twice. */
  lemma {:induction false} AtMostTwoFetches(s: map<string, JsonValue>, now: int, replies: nat -> Reply, attempt: nat)
    requires attempt <= 2
    ensures Validate(s, now, replies, attempt).fetches <= 2 - attempt
    decreases 2 - attempt
  {
    if attempt < 2 && !TokenValid(s, now) {
      var f := FetchToken(replies(attempt), now);
      if !GotAccessToken(f.result) {
        AtMostTwoFetches(f.session, now, replies, attempt + 1);
      }
    }
  }

  /** `validar_token` answers true exactly when the stored token is valid or
      one of the two fetches returned a token, and fetches only as often as
      it has to. */
  lemma ValidateOutcome(s: map<string, JsonValue>, now: int, replies: nat -> Reply)
    ensures var v := Validate(s, now, replies, 0);
      var f0 := FetchToken(replies(0), now);
      var f1 := FetchToken(replies(1), now);
      && (v.ok <==> TokenValid(s, now) || f0.result.TokenOk? || f1.result.TokenOk?)
      && (TokenValid(s, now) ==> v.fetches == 0 && v.session == s)
      && (!TokenValid(s, now) && f0.result.TokenOk? ==> v.fetches == 1 && v.session == f0.session)
      && (!TokenValid(s, now) && !f0.result.TokenOk? ==> v.fetches == 2 && v.session == f1.session)
  {
    var f0 := FetchToken(replies(0), now);
    if !TokenValid(s, now) && !f0.result.TokenOk? {
      FetchFailureSession(replies(0), now);
      assert !TokenValid(f0.session, now);
    }
  }

  /** Whatever the replies, `validar_token` leaves a well-formed session. */
  lemma {:induction false} ValidateKeepsValidSession(s: map<string, JsonValue>, now: int, replies: nat -> Reply, attempt: nat)
    requires ValidSession(s)
    ensures ValidSession(Validate(s, now, replies, attempt).session)
    decreases 2 - attempt
  {
    if attempt < 2 && !TokenValid(s, now) {
      var f := FetchToken(replies(attempt), now);
      if !GotAccessToken(f.result) {
        ValidateKeepsValidSession(f.session, now, replies, attempt + 1);
      }
    }
  }

  // ---------------------------------------------------------------------
  // Properties of make_api_request

  /** No upstream request is sent when the token cannot be validated (500)
      or the session holds no usable token (401); otherwise the request is
      sent once and its reply is mapped. */
  lemma ApiRequestExits(s: map<string, JsonValue>, now: int, tokenReplies: nat -> Reply, upstream: Reply)
    ensures var v := Validate(s, now, tokenReplies, 0);
      var run := ApiRequest(s, now, tokenReplies, upstream);
      && run.session == v.session
      && (!v.ok ==> !run.sent && run.result == ApiResult(ErrorBody(TokenFailedMessage), 500))
      && (v.ok && !(AccessToken in v.session && PyTruthy(v.session[AccessToken])) ==>
            !run.sent && run.result == ApiResult(ErrorBody(TokenMissingMessage), 401))
      && (run.sent <==> v.ok && AccessToken in v.session && PyTruthy(v.session[AccessToken]))
      && (run.sent ==> run.result == MapReplyAsWritten(upstream))
  {
  }

  /** As written, a request that reaches the API and gets an HTTP error
      back is answered with 500, whatever the API's status. */
  lemma UpstreamErrorAnswered500(s: map<string, JsonValue>, now: int, tokenReplies: nat -> Reply, status: int, body: Option<JsonValue>)
    requires IsHttpError(status)
    ensures var run := ApiRequest(s, now, tokenReplies, Answered(status, body));
      run.sent ==> run.result == ApiResult(ErrorBody(UpstreamHttpErrorMessage), 500)
  {
  }

  /** After a successful fetch the stored token is the one fetched, so a
      request goes out exactly when that token is truthy. */
  lemma FreshTokenIsSent(s: map<string, JsonValue>, now: int, tokenReplies: nat -> Reply, upstream: Reply)
    requires !TokenValid(s, now)
    requires FetchToken(tokenReplies(0), now).result.TokenOk?
    ensures var d := FetchToken(tokenReplies(0), now).result.tokenData;
      ApiRequest(s, now, tokenReplies, upstream).sent <==> PyTruthy(d[AccessToken])
  {
    FetchSuccessSession(tokenReplies(0), now);
  }

  /** The status mapping: the status is always returned; 200 and 201 give the
      parsed JSON or `{}`; every other non-error status gives `{}`. */
  lemma MapReplyStatus(reply: Reply)
    ensures reply.Unreachable? ==> MapReply(reply).status == 500
    ensures reply.Answered? ==> MapReply(reply).status == reply.status
    ensures reply.Answered? && (reply.status == 200 || reply.status == 201) ==>
      MapReply(reply).body == (if reply.body.Some? then reply.body.value else JObj(map[]))
    ensures reply.Answered? && !IsHttpError(reply.status) && reply.status != 200 && reply.status != 201 ==>
      MapReply(reply).body == JObj(map[])
    ensures reply.Answered? && IsHttpError(reply.status) ==> MapReply(reply).body == ErrorBody(UpstreamHttpErrorMessage)
  {
  }

  /** As written, every upstream HTTP error reaches the caller as 500: a 404
      from the API is reported as a server failure. */
  lemma HttpErrorStatusLostAsWritten(status: int, body: Option<JsonValue>)
    requires IsHttpError(status)
    ensures MapReplyAsWritten(Answered(status, body)).status == 500
    ensures MapReply(Answered(status, body)).status == status
    ensures status != 500 ==> MapReplyAsWritten(Answered(status, body)) != MapReply(Answered(status, body))
  {
  }

  /** The two mappings differ only on HTTP errors. */
  lemma MapReplyAsWrittenAgreesElsewhere(reply: Reply)
    requires !(reply.Answered? && IsHttpError(reply.status))
    ensures MapReplyAsWritten(reply) == MapReply(reply)
  {
  }

  // ---------------------------------------------------------------------
  // The Flask session and the three static methods that use it

  class FlaskSession {
    /** The Flask `session` dictionary. */
    var data: map<string, JsonValue>
    /** Upstream requests sent by `make_api_request`, oldest first. */
    ghost var sent: seq<ApiCall>

    ghost predicate Valid()
      reads this
    {
      ValidSession(data)
    }

    constructor (initial: map<string, JsonValue>)
      requires ValidSession(initial)
      ensures Valid() && data == initial && sent == []
    {
      data := initial;
      sent := [];
    }

    /** `Funcoes.get_api_token()`. */
    method GetApiToken(now: int, reply: Reply) returns (r: TokenResult)
      modifies this
      ensures Fetch(r, data) == FetchToken(reply, now)
      ensures Valid() && sent == old(sent)
    {
      data := map[];
      if reply.Unreachable? {
        r := TokenFailure(TokenUnexpectedMessage);
        return;
      }
      if IsHttpError(reply.status) {
        r := TokenFailure(TokenHttpErrorMessage);
        return;
      }
      if reply.body.None? || !reply.body.value.JObj? {
        r := TokenFailure(TokenUnexpectedMessage);
        return;
      }
      var tokenData := reply.body.value.fields;
      if AccessToken !in tokenData {
        r := TokenFailure(TokenUnexpectedMessage);
        return;
      }
      data := data[AccessToken := tokenData[AccessToken]];
      if ExpireMinutes !in tokenData {
        r := TokenFailure(TokenUnexpectedMessage);
        return;
      }
      data := data[ExpireMinutes := tokenData[ExpireMinutes]];
      if TokenType !in tokenData {
        r := TokenFailure(TokenUnexpectedMessage);
        return;
      }
      data := data[TokenType := tokenData[TokenType]];
      var secs := ExpireSeconds(tokenData[ExpireMinutes], now);
      if secs.None? {
        r := TokenFailure(TokenUnexpectedMessage);
        return;
      }
      data := data[TokenValidade := JNum(now + secs.value)];
      r := TokenOk(tokenData);
    }

    /** `Funcoes.validar_token()`: `replies(i)` is what the token endpoint
        answers on attempt `i`; `fetches` counts the calls of `get_api_token`. */
    method ValidarToken(now: int, replies: nat -> Reply) returns (ok: bool, ghost fetches: nat)
      requires Valid()
      modifies this
      ensures Validation(ok, data, fetches) == Validate(old(data), now, replies, 0)
      ensures Valid() && sent == old(sent)
    {
      fetches := 0;
      for attempt := 0 to 2
        invariant Valid() && sent == old(sent)
        invariant var v := Validate(data, now, replies, attempt);
          Validate(old(data), now, replies, 0) == Validation(v.ok, v.session, v.fetches + fetches)
      {
        if TokenValidade in data && data[TokenValidade].n > now {
          return true, fetches;
        }
        var r := GetApiToken(now, replies(attempt));
        fetches := fetches + 1;
        if r.TokenOk? && AccessToken in r.tokenData {
          return true, fetches;
        }
      }
      ok := false;
    }

    /** `Funcoes.make_api_request(method, url, data)`: `tokenReplies` feeds
        `validar_token`, `upstream` is the API's reply to the request. */
    method MakeApiRequest(verb: Method, url: string, body: Option<JsonValue>,
                          now: int, tokenReplies: nat -> Reply, upstream: Reply)
      returns (result: ApiResult)
      requires Valid()
      modifies this
      ensures var run := ApiRequest(old(data), now, tokenReplies, upstream);
        && result == run.result && data == run.session
        && sent == old(sent) + (if run.sent then [ApiCall(verb, url, body)] else [])
      ensures Valid()
    {
      var ok;
      ghost var fetches;
      ok, fetches := ValidarToken(now, tokenReplies);
      if !ok {
        return ApiResult(ErrorBody(TokenFailedMessage), 500);
      }
      if AccessToken !in data || !PyTruthy(data[AccessToken]) {
        return ApiResult(ErrorBody(TokenMissingMessage), 401);
      }
      sent := sent + [ApiCall(verb, url, body)];
      result := MapReplyAsWritten(upstream);
    }
  }
}
