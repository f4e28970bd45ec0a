/** The customer form: its mode and title from the route parameters, its
    field rules, the duplicate-CPF check run when the CPF field loses focus,
    and the save that creates or updates the record. The service calls are
    oracle inputs; navigations, toasts and service calls are recorded by
    the `ClienteFormView` object as ghost logs. */
module ClienteForm {
  import opened Base
  import opened Json
  import Router

  /** `useParams()`: `id` and `opr` are `undefined` (None) on `/cliente`. */
  datatype Params = Params(id: Option<string>, opr: Option<string>)

  predicate IsReadOnly(p: Params)
  {
    p.opr == Some("view")
  }

  /** `if (id)`: the id is neither undefined nor empty. */
  predicate HasId(p: Params)
  {
    p.id.Some? && p.id.value != ""
  }

  /** `${id}`: an undefined id is written "undefined". */
  function IdText(id: Option<string>): string
  {
    match id
    case Some(s) => s
    case None => "undefined"
  }

  const ViewPrefix := "Visualizar Cliente: "
  const EditPrefix := "Editar Cliente: "
  const NewTitle := "Novo Cliente"
  const ListPath := "/clientes"

  /** The `title` the component computes; nothing renders it, as the
      toolbar shows the fixed heading "Dados Cliente". */
  function Title(p: Params): string
  {
    if IsReadOnly(p) then ViewPrefix + IdText(p.id)
    else if HasId(p) then EditPrefix + p.id.value
    else NewTitle
  }

  /** The submit button's label; it is not rendered in view mode. */
  function SubmitLabel(p: Params): Option<string>
  {
    if IsReadOnly(p) then None
    else if HasId(p) then Some("Atualizar")
    else Some("Cadastrar")
  }

  // ---------------------------------------------------------------------
  // Field rules

  const NomeMaxLength := 100

  datatype Fields = Fields(nome: string, cpf: string, telefone: string)
  datatype FieldError = FieldError(field: string, message: string)

  /** The first failing rule of each field: `required` before `maxLength`. */
  function Errors(f: Fields): seq<FieldError>
  {
    (if f.nome == "" then [FieldError("nome", "Nome é obrigatório")]
     else if |f.nome| > NomeMaxLength then [FieldError("nome", "Máximo de 100 caracteres")]
     else [])
    + (if f.cpf == "" then [FieldError("cpf", "CPF é obrigatório")] else [])
    + (if f.telefone == "" then [FieldError("telefone", "Telefone é obrigatório")] else [])
  }

  // ---------------------------------------------------------------------
  // The duplicate-CPF check

  /** What `getClienteByCPF` gave: it threw, or it returned `data[0]`
      (None when that is `undefined`). */
  datatype Lookup = LookupThrew | LookupReturned(found: Option<JsonValue>)

  datatype CpfCheck =
    | Skipped
    | LookupFailed
    | NoConflict
    | Conflict(existing: JsonValue, idExistente: JsonValue)

  /** `parseInt(id) !== idExistente`: NaN differs from everything, and a
      number never equals a non-number. */
  predicate IdDiffers(id: string, idExistente: JsonValue)
  {
    var n := JsParseInt(id);
    !(n.Some? && idExistente == JNum(n.value))
  }

  /** The condition under which the duplicate prompt is shown. */
  predicate ShowsPrompt(p: Params, found: Option<JsonValue>)
  {
    && found.Some? && JsTruthy(found.value)
    && var idExistente := Property(found.value, "id_cliente");
    && idExistente.Some? && JsTruthy(idExistente.value)
    && (!HasId(p) || IdDiffers(p.id.value, idExistente.value))
  }

  function CheckCpf(p: Params, cpf: string, lookup: Lookup): CpfCheck
  {
    if cpf == "" || IsReadOnly(p) then Skipped
    else
      match lookup
      case LookupThrew => LookupFailed
      case LookupReturned(found) =>
        if ShowsPrompt(p, found) then Conflict(found.value, Property(found.value, "id_cliente").value)
        else NoConflict
  }

  function EditPath(idExistente: JsonValue): string
  {
    "/cliente/edit/" + JsStr(idExistente)
  }

  function ViewPath(idExistente: JsonValue): string
  {
    "/cliente/view/" + JsStr(idExistente)
  }

  datatype Choice = Editar | Visualizar | Cancelar

  /** What clicking a prompt button does, after the prompt is dismissed. */
  datatype Click = NavigateTo(path: string) | ReferenceError

  /** The buttons as written: "Cancelar" calls `onCancel`, which is not in
      scope, so the click throws. */
  function ClickAsWritten(idExistente: JsonValue, choice: Choice): Click
  {
    match choice
    case Editar => NavigateTo(EditPath(idExistente))
    case Visualizar => NavigateTo(ViewPath(idExistente))
    case Cancelar => ReferenceError
  }

  /** The buttons with "Cancelar" running the fourth callback the form
      passes, `navigate('/clientes')`. */
  function ClickPrompt(idExistente: JsonValue, choice: Choice): Click
  {
    match choice
    case Editar => NavigateTo(EditPath(idExistente))
    case Visualizar => NavigateTo(ViewPath(idExistente))
    case Cancelar => NavigateTo(ListPath)
  }

  // ---------------------------------------------------------------------
  // Saving

  datatype SaveCall = CreateCliente(data: Fields) | UpdateCliente(id: string, data: Fields)

  /** What the service gave: it threw (an HTTP error, say) with a message, or
      it returned the response body (None when `undefined`). */
  datatype SaveReply = SaveThrew(message: string) | SaveReturned(body: Option<JsonValue>)

  /** How `onSubmit` ends: saved, with the returned id; failed with the
      message shown; or a TypeError from reading `erro` of a null reply,
      whose message is the engine's. */
  datatype SaveOutcome = Saved(id: JsonValue) | SaveFailed(message: string) | NullReplyFailed

  datatype SubmitOutcome = Invalid(errors: seq<FieldError>) | Attempted(call: SaveCall, outcome: SaveOutcome)

  const DefaultSaveError := "Erro ao salvar cliente."
  const SaveErrorPrefix := "Erro ao salvar cliente: \n"
  const SavedPrefix := "Cliente salvo com sucesso. ID: "

  function SaveCallFor(p: Params, f: Fields): SaveCall
  {
    if HasId(p) then UpdateCliente(p.id.value, f) else CreateCliente(f)
  }

  /** `retorno && retorno.id` holds. */
  predicate CarriesId(body: Option<JsonValue>)
  {
    body.Some? && JsTruthy(body.value)
    && Property(body.value, "id").Some? && JsTruthy(Property(body.value, "id").value)
  }

  function SaveResult(reply: SaveReply): SaveOutcome
  {
    match reply
    case SaveThrew(m) => SaveFailed(m)
    case SaveReturned(body) =>
      if CarriesId(body) then Saved(Property(body.value, "id").value)
      else if body.None? || body.value.JNull? then NullReplyFailed
      else
        var erro := Property(body.value, "erro");
        SaveFailed(if erro.Some? && JsTruthy(erro.value) then JsStr(erro.value) else DefaultSaveError)
  }

  /** `handleSubmit(onSubmit)`: the rules first, then one save. */
  function SubmitWith(p: Params, f: Fields, service: SaveCall -> SaveReply): SubmitOutcome
  {
    if Errors(f) != [] then Invalid(Errors(f))
    else
      var call := SaveCallFor(p, f);
      Attempted(call, SaveResult(service(call)))
  }

  // ---------------------------------------------------------------------
  // Properties

  /** The title tells the three modes apart; the edit title shows the id. */
  lemma TitleShowsMode(p: Params)
    ensures IsReadOnly(p) <==> ViewPrefix <= Title(p)
    ensures !IsReadOnly(p) && HasId(p) <==> EditPrefix <= Title(p)
    ensures !IsReadOnly(p) && !HasId(p) <==> Title(p) == NewTitle
    ensures EditPrefix <= Title(p) ==> Title(p)[|EditPrefix|..] == p.id.value
    ensures IsReadOnly(p) && p.id.Some? ==> Title(p)[|ViewPrefix|..] == p.id.value
  {
    var t := Title(p);
    assert ViewPrefix[0] == 'V' && EditPrefix[0] == 'E' && NewTitle[0] == 'N';
    if IsReadOnly(p) {
      assert t[0] == 'V';
    } else if HasId(p) {
      assert t[0] == 'E';
    } else {
      assert t[0] == 'N';
    }
  }

  /** The button says "Atualizar" exactly when the submit would update. */
  lemma LabelMatchesCall(p: Params, f: Fields)
    ensures SubmitLabel(p) == Some("Atualizar") <==> !IsReadOnly(p) && SaveCallFor(p, f).UpdateCliente?
    ensures SubmitLabel(p).None? <==> IsReadOnly(p)
  {
  }

  lemma FieldRules(f: Fields)
    ensures FieldError("nome", "Nome é obrigatório") in Errors(f) <==> f.nome == ""
    ensures FieldError("nome", "Máximo de 100 caracteres") in Errors(f) <==> |f.nome| > NomeMaxLength
    ensures FieldError("cpf", "CPF é obrigatório") in Errors(f) <==> f.cpf == ""
    ensures FieldError("telefone", "Telefone é obrigatório") in Errors(f) <==> f.telefone == ""
    ensures Errors(f) == [] <==> 0 < |f.nome| <= NomeMaxLength && f.cpf != "" && f.telefone != ""
  {
  }

  /** No lookup happens for an empty CPF or in view mode. */
  lemma LookupSkipped(p: Params, cpf: string, lookup: Lookup)
    ensures CheckCpf(p, cpf, lookup).Skipped? <==> cpf == "" || IsReadOnly(p)
    ensures CheckCpf(p, cpf, lookup).Conflict? <==>
      cpf != "" && !IsReadOnly(p) && lookup.LookupReturned? && ShowsPrompt(p, lookup.found)
  {
  }

  /** The prompt appears iff a record was found, it has a truthy
      `id_cliente`, and the form has no id or one whose number differs. On
      a conflict the prompt links to that record. */
  lemma PromptConditions(p: Params, cpf: string, found: JsonValue)
    requires cpf != "" && !IsReadOnly(p)
    ensures var c := CheckCpf(p, cpf, LookupReturned(Some(found)));
      c.Conflict? <==>
        && JsTruthy(found) && found.JObj? && "id_cliente" in found.fields
        && JsTruthy(found.fields["id_cliente"])
        && (|| !HasId(p)
            || !found.fields["id_cliente"].JNum?
            || JsParseInt(p.id.value) != Some(found.fields["id_cliente"].n))
    ensures var c := CheckCpf(p, cpf, LookupReturned(Some(found)));
      c.Conflict? ==> c.existing == found && c.idExistente == found.fields["id_cliente"]
    ensures CheckCpf(p, cpf, LookupReturned(None)) == NoConflict
  {
  }

  /** Editing a record and re-entering its own CPF does not prompt: the
      route id parses back to the record's numeric `id_cliente`. */
  lemma OwnRecordNoPrompt(n: int, found: JsonValue)
    requires found.JObj? && "id_cliente" in found.fields && found.fields["id_cliente"] == JNum(n)
    ensures !ShowsPrompt(Params(Some(IntToDecimal(n)), Some("edit")), Some(found))
  {
    ParseIntOfDecimal(n);
    DecimalHasNoSlash(n);
  }

  /** Following the prompt's edit link for a record opens the guarded
      customer form on that record, which does not prompt
      again for the same record. */
  lemma EditLinkOpensRecord(n: int, found: JsonValue)
    requires found.JObj? && "id_cliente" in found.fields && found.fields["id_cliente"] == JNum(n)
    ensures var id := IntToDecimal(n);
      && Router.Resolve(EditPath(JNum(n)))
           == Router.Resolution(Router.ClienteFormPage, true, map["opr" := "edit", "id" := id])
      && !ShowsPrompt(Params(Some(id), Some("edit")), Some(found))
  {
    var id := IntToDecimal(n);
    DecimalHasNoSlash(n);
    assert EditPath(JNum(n)) == Router.RecordPath("cliente", "edit", id);
    Router.ResolveRecordPath("cliente", "edit", id);
    OwnRecordNoPrompt(n, found);
  }

  /** The view link opens the same record read-only. */
  lemma ViewLinkOpensRecord(n: int)
    ensures Router.Resolve(ViewPath(JNum(n)))
      == Router.Resolution(Router.ClienteFormPage, true, map["opr" := "view", "id" := IntToDecimal(n)])
  {
    DecimalHasNoSlash(n);
    assert ViewPath(JNum(n)) == Router.RecordPath("cliente", "view", IntToDecimal(n));
    Router.ResolveRecordPath("cliente", "view", IntToDecimal(n));
  }

  lemma DecimalHasNoSlash(n: int)
    ensures IntToDecimal(n) != [] && '/' !in IntToDecimal(n)
  {
    var d := NatToDecimal(if n < 0 then -n else n);
    assert !IsRadixDigit('/', 10);
    assert forall i :: 0 <= i < |d| ==> d[i] != '/';
  }

  /** As written, "Cancelar" throws; the corrected prompt returns to the
      list instead, and the other two buttons are unchanged. */
  lemma CancelThrowsAsWritten(idExistente: JsonValue)
    ensures ClickAsWritten(idExistente, Cancelar) == ReferenceError
    ensures ClickPrompt(idExistente, Cancelar) == NavigateTo(ListPath)
    ensures forall c :: c != Cancelar ==> ClickAsWritten(idExistente, c) == ClickPrompt(idExistente, c)
  {
  }

  /** Every prompt button of the corrected prompt navigates. */
  lemma PromptAlwaysNavigates(idExistente: JsonValue, choice: Choice)
    ensures ClickPrompt(idExistente, choice).NavigateTo?
    ensures choice == Editar ==> ClickPrompt(idExistente, choice).path == EditPath(idExistente)
    ensures choice == Visualizar ==> ClickPrompt(idExistente, choice).path == ViewPath(idExistente)
  {
  }

  /** A submit updates when the route carries an id, creates otherwise;
      an invalid form makes no call. */
  lemma SubmitChoosesOne(p: Params, f: Fields, service: SaveCall -> SaveReply)
    ensures SubmitWith(p, f, service).Invalid? <==> Errors(f) != []
    ensures SubmitWith(p, f, service).Attempted? ==>
      (SubmitWith(p, f, service).call.UpdateCliente? <==> HasId(p))
      && SubmitWith(p, f, service).call.data == f
    ensures SubmitWith(p, f, service).Attempted? && HasId(p) ==>
      SubmitWith(p, f, service).call == UpdateCliente(p.id.value, f)
  {
  }

  /** A save succeeds exactly when the reply carries a truthy `id`. */
  lemma SaveSucceedsIff(reply: SaveReply)
    ensures SaveResult(reply).Saved? <==> reply.SaveReturned? && CarriesId(reply.body)
    ensures SaveResult(reply).Saved? ==> JsTruthy(SaveResult(reply).id)
    ensures reply.SaveThrew? ==> SaveResult(reply) == SaveFailed(reply.message)
  {
  }

  /** A returned body without an id reports its `erro`, or the default
      message when it has none or a falsy one (`retorno.erro || ...`). */
  lemma SaveErrorMessage(body: JsonValue)
    requires !CarriesId(Some(body)) && !body.JNull?
    ensures "erro" !in ErrorFields(body) || !JsTruthy(ErrorFields(body)["erro"]) ==>
      SaveResult(SaveReturned(Some(body))) == SaveFailed(DefaultSaveError)
    ensures "erro" in ErrorFields(body) && JsTruthy(ErrorFields(body)["erro"]) ==>
      SaveResult(SaveReturned(Some(body))) == SaveFailed(JsStr(ErrorFields(body)["erro"]))
  {
  }

  function ErrorFields(body: JsonValue): map<string, JsonValue>
  {
    if body.JObj? then body.fields else map[]
  }

  // ---------------------------------------------------------------------
  // The form component

  datatype Notice =
    | DuplicatePrompt(cliente: JsonValue)
    | ErrorNotice(text: string)
    | SuccessNotice(text: string)
    | TypeErrorNotice

  /** The toasts `handleCPF` shows for a check outcome. */
  function CheckNotices(c: CpfCheck): seq<Notice>
  {
    match c
    case Conflict(existing, _) => [DuplicatePrompt(existing)]
    case LookupFailed => [ErrorNotice("Erro ao verificar CPF existente.")]
    case _ => []
  }

  /** The toast `onSubmit` shows for a save outcome. */
  function SaveNotice(o: SaveOutcome): Notice
  {
    match o
    case Saved(id) => SuccessNotice(SavedPrefix + JsStr(id))
    case SaveFailed(m) => ErrorNotice(SaveErrorPrefix + m)
    case NullReplyFailed => TypeErrorNotice
  }

  class ClienteFormView {
    const params: Params
    ghost var navigations: seq<string>
    ghost var notices: seq<Notice>
    ghost var lookups: seq<string>
    ghost var saves: seq<SaveCall>

    constructor (p: Params)
      ensures params == p
      ensures navigations == [] && notices == [] && lookups == [] && saves == []
    {
      params := p;
      navigations := [];
      notices := [];
      lookups := [];
      saves := [];
    }

    /** `handleCPF(cpfDigitado)`, with `lookup` the service's answer. */
    method HandleCpf(cpf: string, lookup: Lookup) returns (check: CpfCheck)
      modifies this
      ensures check == CheckCpf(params, cpf, lookup)
      ensures lookups == old(lookups) + (if check.Skipped? then [] else [cpf])
      ensures notices == old(notices) + CheckNotices(check)
      ensures navigations == old(navigations) && saves == old(saves)
    {
      if cpf == "" || params.opr == Some("view") {
        return Skipped;
      }
      lookups := lookups + [cpf];
      match lookup {
        case LookupThrew =>
          check := LookupFailed;
          notices := notices + [ErrorNotice("Erro ao verificar CPF existente.")];
        case LookupReturned(found) =>
          check := NoConflict;
          if found.Some? && JsTruthy(found.value) {
            var idExistente := Property(found.value, "id_cliente");
            if idExistente.Some? && JsTruthy(idExistente.value) {
              var id := params.id;
              if id.None? || id.value == "" || IdDiffers(id.value, idExistente.value) {
                check := Conflict(found.value, idExistente.value);
                notices := notices + [DuplicatePrompt(found.value)];
              }
            }
          }
      }
    }

    /** A click on one of the prompt's buttons, as written: "Cancelar"
        throws before any navigation. */
    method ClickPromptButton(idExistente: JsonValue, choice: Choice) returns (click: Click)
      modifies this
      ensures click == ClickAsWritten(idExistente, choice)
      ensures navigations == old(navigations) + (if click.NavigateTo? then [click.path] else [])
      ensures notices == old(notices) && lookups == old(lookups) && saves == old(saves)
    {
      match choice {
        case Editar => click := NavigateTo("/cliente/edit/" + JsStr(idExistente));
        case Visualizar => click := NavigateTo("/cliente/view/" + JsStr(idExistente));
        case Cancelar =>
          click := ReferenceError;
          return;
      }
      navigations := navigations + [click.path];
    }

    /** The form's own "Cancelar" button. */
    method Cancel()
      modifies this
      ensures navigations == old(navigations) + [ListPath]
      ensures notices == old(notices) && lookups == old(lookups) && saves == old(saves)
    {
      navigations := navigations + [ListPath];
    }

    /** `handleSubmit(onSubmit)` with `service` answering the save. */
    method Submit(f: Fields, service: SaveCall -> SaveReply) returns (result: SubmitOutcome)
      modifies this
      ensures result == SubmitWith(params, f, service)
      ensures saves == old(saves) + (if result.Attempted? then [result.call] else [])
      ensures navigations == old(navigations)
        + (if result.Attempted? && result.outcome.Saved? then [ListPath] else [])
      ensures notices == old(notices) + (if result.Attempted? then [SaveNotice(result.outcome)] else [])
      ensures lookups == old(lookups)
    {
      var errors := Errors(f);
      if errors != [] {
        return Invalid(errors);
      }
      var call: SaveCall;
      if params.id.Some? && params.id.value != "" {
        call := UpdateCliente(params.id.value, f);
      } else {
        call := CreateCliente(f);
      }
      saves := saves + [call];
      var outcome: SaveOutcome;
      match service(call) {
        case SaveThrew(m) =>
          outcome := SaveFailed(m);
        case SaveReturned(body) =>
          if body.Some? && JsTruthy(body.value) && Property(body.value, "id").Some?
             && JsTruthy(Property(body.value, "id").value) {
            outcome := Saved(Property(body.value, "id").value);
          } else if body.None? || body.value.JNull? {
            outcome := NullReplyFailed;
          } else {
            var erro := Property(body.value, "erro");
            var message := DefaultSaveError;
            if erro.Some? && JsTruthy(erro.value) {
              message := JsStr(erro.value);
            }
            outcome := SaveFailed(message);
          }
      }
      notices := notices + [SaveNotice(outcome)];
      if outcome.Saved? {
        navigations := navigations + [ListPath];
      }
      result := Attempted(call, outcome);
    }
  }
}
