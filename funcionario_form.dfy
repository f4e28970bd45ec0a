/** The employee form: declarative field rules and an `onSubmit` that only
    logs the data it receives. */
module FuncionarioForm {
  import opened Base

  const MinSenhaLength := 6
  const GrupoOptions := ["admin", "gerente", "funcionario"]

  datatype Fields = Fields(nome: string, cpf: string, matricula: string,
                           telefone: string, senha: string, grupo: string)
  datatype FieldError = FieldError(field: string, message: string)

  /** `handleSubmit(onSubmit)`: the field errors, or the data `onSubmit` logs.
      Nothing else is changed by a submit. */
  datatype SubmitOutcome = Blocked(errors: seq<FieldError>) | Logged(data: Fields)

  function Required(value: string, message: string): Option<string>
  {
    if value == "" then Some(message) else None
  }

  /** The first failing rule of one field: `required`, then `minLength` for
      `senha`. The `grupo` rule is `required` only: the three options come
      from the select box, not from a rule. */
  function Rule(f: Fields, field: string): Option<string>
  {
    match field
    case "nome" => Required(f.nome, "Nome é obrigatório")
    case "cpf" => Required(f.cpf, "CPF é obrigatório")
    case "matricula" => Required(f.matricula, "Matrícula é obrigatória")
    case "telefone" => Required(f.telefone, "Telefone é obrigatório")
    case "senha" =>
      if f.senha == "" then Some("Senha é obrigatória")
      else if |f.senha| < MinSenhaLength then Some("Senha deve ter pelo menos 6 caracteres")
      else None
    case "grupo" => Required(f.grupo, "Grupo é obrigatório")
    case _ => None
  }

  const FieldOrder := ["nome", "cpf", "matricula", "telefone", "senha", "grupo"]

  /** The errors of the named fields, in the given order. */
  function Collect(f: Fields, names: seq<string>): seq<FieldError>
  {
    if names == [] then []
    else
      (match Rule(f, names[0])
       case Some(m) => [FieldError(names[0], m)]
       case None => [])
      + Collect(f, names[1..])
  }

  function Errors(f: Fields): seq<FieldError>
  {
    Collect(f, FieldOrder)
  }

  function Submit(f: Fields): SubmitOutcome
  {
    var errors := Errors(f);
    if errors == [] then Logged(f) else Blocked(errors)
  }

  // ---------------------------------------------------------------------
  // Properties

  /** The error list holds exactly one entry per failing field, with that
      field's message. */
  lemma {:induction false} CollectExactly(f: Fields, names: seq<string>, e: FieldError)
    ensures e in Collect(f, names) <==> e.field in names && Rule(f, e.field) == Some(e.message)
  {
    if names != [] {
      CollectExactly(f, names[1..], e);
    }
  }

  /** Five fields are only required; `senha` also needs six characters. */
  lemma FieldRules(f: Fields)
    ensures Rule(f, "nome").Some? <==> f.nome == ""
    ensures Rule(f, "cpf").Some? <==> f.cpf == ""
    ensures Rule(f, "matricula").Some? <==> f.matricula == ""
    ensures Rule(f, "telefone").Some? <==> f.telefone == ""
    ensures Rule(f, "senha").Some? <==> |f.senha| < MinSenhaLength
    ensures Rule(f, "grupo").Some? <==> f.grupo == ""
  {
  }

  /** The form is accepted exactly when every field passes its rule. */
  lemma ErrorsEmptyIff(f: Fields)
    ensures Errors(f) == [] <==>
      f.nome != "" && f.cpf != "" && f.matricula != "" && f.telefone != ""
      && |f.senha| >= MinSenhaLength && f.grupo != ""
  {
    FieldRules(f);
    forall name | name in FieldOrder && Rule(f, name).Some?
      ensures Errors(f) != []
    {
      CollectExactly(f, FieldOrder, FieldError(name, Rule(f, name).value));
    }
    assert FieldOrder == ["nome", "cpf", "matricula", "telefone", "senha", "grupo"];
    if Errors(f) != [] {
      var e := Errors(f)[0];
      assert e in Errors(f);
      CollectExactly(f, FieldOrder, e);
      assert e.field in FieldOrder && Rule(f, e.field).Some?;
      assert e.field == "nome" || e.field == "cpf" || e.field == "matricula"
        || e.field == "telefone" || e.field == "senha" || e.field == "grupo";
    } else {
      assert "nome" in FieldOrder && "cpf" in FieldOrder && "matricula" in FieldOrder;
      assert "telefone" in FieldOrder && "senha" in FieldOrder && "grupo" in FieldOrder;
    }
  }

  /** Each of the three offered groups satisfies the `grupo` rule. */
  lemma OfferedGroupsPass(f: Fields)
    requires f.grupo in GrupoOptions
    ensures Rule(f, "grupo") == None
    ensures forall m :: FieldError("grupo", m) !in Errors(f)
  {
    forall m ensures FieldError("grupo", m) !in Errors(f) {
      CollectExactly(f, FieldOrder, FieldError("grupo", m));
    }
  }

  /** When `grupo` comes from the select box (one of its three options, or
      nothing chosen yet), a submit that goes through carries one of the
      options: the empty choice is stopped by the `required` rule. */
  lemma LoggedGrupoOffered(f: Fields)
    requires f.grupo == "" || f.grupo in GrupoOptions
    ensures Submit(f).Logged? ==> Submit(f).data.grupo in GrupoOptions
  {
    ErrorsEmptyIff(f);
  }

  /** A submit either shows errors or logs the entered data unchanged. */
  lemma SubmitOnlyLogs(f: Fields)
    ensures Submit(f).Logged? <==> Errors(f) == []
    ensures Submit(f).Logged? ==> Submit(f).data == f
  {
  }
}
