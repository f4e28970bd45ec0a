/** The front end's route table (`AppRoutes`): each path pattern names a page
    and says whether the page sits behind the authentication guard. A path is
    matched the way the router compiles a pattern: one leading '/', the
    segments between slashes, any number of trailing slashes, and a `:name`
    segment binding one non-empty segment. */
module Router {
  import opened Base

  datatype Seg = Lit(text: string) | Param(name: string)

  datatype Page =
    | RedirectToLogin
    | LoginPage
    | HomePage
    | FuncionarioListPage
    | FuncionarioFormPage
    | ClienteListPage
    | ClienteFormPage
    | ProdutoListPage
    | ProdutoFormPage
    | NotFoundPage

  /** One `<Route>`: its pattern, its element, and whether the element is
      wrapped in `PrivateRoute`. */
  datatype Route = Route(pattern: seq<Seg>, page: Page, guarded: bool)

  /** The page a path resolves to, the guard flag of its route and the
      parameters the pattern binds. */
  datatype Resolution = Resolution(page: Page, guarded: bool, params: map<string, string>)

  const LoginTarget := "/login"

  /** The explicit routes in source order; the catch-all `*` is `Resolve`'s
      fallback. */
  const Table: seq<Route> := [
    Route([], RedirectToLogin, false),
    Route([Lit("login")], LoginPage, false),
    Route([Lit("home")], HomePage, true),
    Route([Lit("funcionarios")], FuncionarioListPage, false),
    Route([Lit("funcionario")], FuncionarioFormPage, false),
    Route([Lit("clientes")], ClienteListPage, false),
    Route([Lit("cliente")], ClienteFormPage, false),
    Route([Lit("produtos")], ProdutoListPage, false),
    Route([Lit("produto")], ProdutoFormPage, false),
    Route([Lit("funcionario"), Param("opr"), Param("id")], FuncionarioFormPage, true),
    Route([Lit("cliente"), Param("opr"), Param("id")], ClienteFormPage, true),
    Route([Lit("produto"), Param("opr"), Param("id")], ProdutoFormPage, true)
  ]

  // ---------------------------------------------------------------------
  // Paths and segments

  /** The pieces of `s` between slashes (at least one, possibly empty). */
  function Split(s: string): (r: seq<string>)
    ensures |r| >= 1
  {
    if s == [] then [[]]
    else
      var rest := Split(s[1..]);
      if s[0] == '/' then [[]] + rest else [[s[0]] + rest[0]] + rest[1..]
  }

  /** The pieces joined back with '/'. */
  function Join(pieces: seq<string>): string
    requires |pieces| >= 1
  {
    if |pieces| == 1 then pieces[0] else pieces[0] + "/" + Join(pieces[1..])
  }

  function TrimTrailingSlashes(s: string): (t: string)
    ensures t <= s
    ensures t == [] || t[|t| - 1] != '/'
  {
    if s != [] && s[|s| - 1] == '/' then TrimTrailingSlashes(s[..|s| - 1]) else s
  }

  /** The segments a path is matched on; `None` when it does not start
      with '/', which no pattern matches. */
  function Pieces(path: string): Option<seq<string>>
  {
    if path == [] || path[0] != '/' then None
    else
      var t := TrimTrailingSlashes(path);
      if t == [] then Some([]) else Some(Split(t[1..]))
  }

  /** The parameters `pattern` binds on `pieces`, when it matches them. */
  function Bind(pattern: seq<Seg>, pieces: seq<string>): Option<map<string, string>>
    requires |pattern| == |pieces|
  {
    if pattern == [] then Some(map[])
    else
      var rest := Bind(pattern[1..], pieces[1..]);
      match pattern[0]
      case Lit(t) => if pieces[0] == t then rest else None
      case Param(n) =>
        if pieces[0] == [] || rest.None? then None else Some(rest.value[n := pieces[0]])
  }

  function MatchPieces(pattern: seq<Seg>, pieces: seq<string>): Option<map<string, string>>
  {
    if |pattern| != |pieces| then None else Bind(pattern, pieces)
  }

  /** The first route from index `k` on that matches. */
  function FirstMatchFrom(pieces: seq<string>, k: nat): Resolution
    requires k <= |Table|
    decreases |Table| - k
  {
    if k == |Table| then Resolution(NotFoundPage, false, map[])
    else
      var m := MatchPieces(Table[k].pattern, pieces);
      if m.Some? then Resolution(Table[k].page, Table[k].guarded, m.value)
      else FirstMatchFrom(pieces, k + 1)
  }

  /** The page shown for a location's path. */
  function Resolve(path: string): Resolution
  {
    match Pieces(path)
    case None => Resolution(NotFoundPage, false, map[])
    case Some(pieces) => FirstMatchFrom(pieces, 0)
  }

  predicate MatchesSome(path: string)
  {
    Pieces(path).Some? && exists i :: 0 <= i < |Table| && MatchPieces(Table[i].pattern, Pieces(path).value).Some?
  }

  // ---------------------------------------------------------------------
  // Properties of splitting

  /** Joining the pieces gives the text back. */
  lemma {:induction false} JoinSplit(s: string)
    ensures Join(Split(s)) == s
  {
    if s != [] {
      JoinSplit(s[1..]);
      var rest := Split(s[1..]);
      if s[0] == '/' {
        assert Split(s)[1..] == rest;
      } else if |rest| > 1 {
        assert Split(s)[1..] == rest[1..];
        assert Join(rest) == rest[0] + "/" + Join(rest[1..]);
      }
    }
  }

  /** The segments a path is matched on are the path itself, less its
      trailing slashes: matching looks at every character of the rest. */
  lemma PiecesRebuildPath(path: string)
    requires Pieces(path).Some?
    ensures var t := TrimTrailingSlashes(path);
      if Pieces(path).value == [] then t == [] else t == "/" + Join(Pieces(path).value)
  {
    var t := TrimTrailingSlashes(path);
    if t != [] {
      assert t[0] == path[0];
      JoinSplit(t[1..]);
      assert t == [t[0]] + t[1..];
    }
  }

  /** A text without '/' is one piece. */
  lemma {:induction false} SplitNoSlash(s: string)
    requires '/' !in s
    ensures Split(s) == [s]
  {
    if s != [] {
      SplitNoSlash(s[1..]);
      assert [s[0]] + s[1..] == s;
    }
  }

  /** A slash-free head followed by '/' is split off as the first piece. */
  lemma {:induction false} SplitAfter(a: string, b: string)
    requires '/' !in a
    ensures Split(a + "/" + b) == [a] + Split(b)
  {
    if a == [] {
      assert a + "/" + b == "/" + b;
      assert ("/" + b)[1..] == b;
    } else {
      assert (a + "/" + b)[1..] == a[1..] + "/" + b;
      SplitAfter(a[1..], b);
      assert [a[0]] + a[1..] == a;
    }
  }

  /** Splitting undoes joining for pieces without '/'. */
  lemma {:induction false} SplitJoin(pieces: seq<string>)
    requires |pieces| >= 1
    requires forall i :: 0 <= i < |pieces| ==> '/' !in pieces[i]
    ensures Split(Join(pieces)) == pieces
  {
    if |pieces| == 1 {
      SplitNoSlash(pieces[0]);
    } else {
      SplitJoin(pieces[1..]);
      SplitAfter(pieces[0], Join(pieces[1..]));
    }
  }

  // ---------------------------------------------------------------------
  // Properties of the table

  /** Two patterns no path can match both: different lengths, or different
      leading literals. */
  predicate Disjoint(p: seq<Seg>, q: seq<Seg>)
  {
    |p| != |q| || (|p| > 0 && p[0].Lit? && q[0].Lit? && p[0].text != q[0].text)
  }

  lemma LeadingLiteral(pattern: seq<Seg>, pieces: seq<string>)
    requires MatchPieces(pattern, pieces).Some?
    requires |pattern| > 0 && pattern[0].Lit?
    ensures pieces[0] == pattern[0].text
  {
  }

  lemma TableDisjoint()
    ensures forall i, j :: 0 <= i < j < |Table| ==> Disjoint(Table[i].pattern, Table[j].pattern)
  {
  }

  /** Every path matches at most one explicit pattern. */
  lemma AtMostOneRoute(pieces: seq<string>, i: nat, j: nat)
    requires i < j < |Table|
    ensures !(MatchPieces(Table[i].pattern, pieces).Some? && MatchPieces(Table[j].pattern, pieces).Some?)
  {
    TableDisjoint();
    var p, q := Table[i].pattern, Table[j].pattern;
    if MatchPieces(p, pieces).Some? && MatchPieces(q, pieces).Some? {
      assert Disjoint(p, q);
      LeadingLiteral(p, pieces);
      LeadingLiteral(q, pieces);
    }
  }

  /** Scanning from `k` finds the one route `i >= k` that matches. */
  lemma {:induction false} FirstMatchFinds(pieces: seq<string>, k: nat, i: nat)
    requires k <= i < |Table|
    requires MatchPieces(Table[i].pattern, pieces).Some?
    ensures FirstMatchFrom(pieces, k)
      == Resolution(Table[i].page, Table[i].guarded, MatchPieces(Table[i].pattern, pieces).value)
    decreases i - k
  {
    if k < i {
      AtMostOneRoute(pieces, k, i);
      FirstMatchFinds(pieces, k + 1, i);
    }
  }

  lemma {:induction false} FirstMatchNone(pieces: seq<string>, k: nat)
    requires k <= |Table|
    requires forall i :: k <= i < |Table| ==> MatchPieces(Table[i].pattern, pieces).None?
    ensures FirstMatchFrom(pieces, k) == Resolution(NotFoundPage, false, map[])
    decreases |Table| - k
  {
    if k < |Table| {
      FirstMatchNone(pieces, k + 1);
    }
  }

  /** A path resolves to the route whose pattern it matches, whatever that
      route's place in the table; with no match it shows NotFound. */
  lemma ResolveIsTheMatch(path: string, i: nat)
    requires Pieces(path).Some? && i < |Table|
    requires MatchPieces(Table[i].pattern, Pieces(path).value).Some?
    ensures Resolve(path)
      == Resolution(Table[i].page, Table[i].guarded, MatchPieces(Table[i].pattern, Pieces(path).value).value)
  {
    FirstMatchFinds(Pieces(path).value, 0, i);
  }

  lemma NotFoundIffNoMatch(path: string)
    ensures Resolve(path).page == NotFoundPage <==> !MatchesSome(path)
  {
    if Pieces(path).Some? {
      var pieces := Pieces(path).value;
      if MatchesSome(path) {
        var i :| 0 <= i < |Table| && MatchPieces(Table[i].pattern, pieces).Some?;
        FirstMatchFinds(pieces, 0, i);
      } else {
        FirstMatchNone(pieces, 0);
      }
    }
  }

  /** A path of one slash-free name is that single piece. */
  lemma SinglePiece(name: string)
    requires name != [] && '/' !in name
    ensures Pieces("/" + name) == Some([name])
  {
    var path := "/" + name;
    assert path[|path| - 1] == name[|name| - 1];
    assert TrimTrailingSlashes(path) == path;
    assert path[1..] == name;
    SplitNoSlash(name);
  }

  /** A record pattern matches exactly the three-piece paths under its
      literal with two non-empty pieces, binding them to `opr` and `id`. */
  lemma RecordMatch(kind: string, pieces: seq<string>)
    ensures MatchPieces([Lit(kind), Param("opr"), Param("id")], pieces).Some? <==>
      |pieces| == 3 && pieces[0] == kind && pieces[1] != [] && pieces[2] != []
    ensures MatchPieces([Lit(kind), Param("opr"), Param("id")], pieces).Some? ==>
      MatchPieces([Lit(kind), Param("opr"), Param("id")], pieces).value
        == map["opr" := pieces[1], "id" := pieces[2]]
  {
    var pattern := [Lit(kind), Param("opr"), Param("id")];
    if |pieces| == 3 {
      var last := [Param("id")];
      assert last[1..] == [] && [pieces[2]][1..] == [];
      assert Bind(last[1..], [pieces[2]][1..]) == Some(map[]);
      var inner := Bind(last, [pieces[2]]);
      assert inner == if pieces[2] == [] then None else Some(map[]["id" := pieces[2]]);
      var two := [Param("opr"), Param("id")];
      assert two[1..] == last;
      assert pieces[1..][1..] == [pieces[2]];
      var mid := Bind(two, pieces[1..]);
      assert mid == if pieces[1] == [] || inner.None? then None else Some(inner.value["opr" := pieces[1]]);
      assert pattern[1..] == two;
      assert Bind(pattern, pieces) == if pieces[0] == kind then mid else None;
      if mid.Some? {
        assert mid.value == map["opr" := pieces[1], "id" := pieces[2]];
      }
    }
  }

  /** A path naming one literal route resolves to that route. */
  lemma ResolveSingle(name: string, i: nat)
    requires name != [] && '/' !in name
    requires i < |Table| && Table[i].pattern == [Lit(name)]
    ensures Resolve("/" + name) == Resolution(Table[i].page, Table[i].guarded, map[])
  {
    SinglePiece(name);
    var pat := Table[i].pattern;
    assert [name][1..] == [] && pat[1..] == [];
    assert Bind(pat[1..], [name][1..]) == Some(map[]);
    assert pat[0] == Lit(name);
    assert MatchPieces(pat, [name]) == Some(map[]);
    ResolveIsTheMatch("/" + name, i);
  }

  /** `/` redirects to `/login`, which shows the login page unguarded. */
  lemma RootRedirectsToLogin()
    ensures Resolve("/") == Resolution(RedirectToLogin, false, map[])
    ensures Resolve(LoginTarget) == Resolution(LoginPage, false, map[])
  {
    assert Pieces("/") == Some([]);
    ResolveSingle("login", 1);
    assert LoginTarget == "/" + "login";
  }

  /** `/home` is guarded. */
  lemma HomeIsGuarded()
    ensures Resolve("/home") == Resolution(HomePage, true, map[])
  {
    ResolveSingle("home", 2);
  }

  // The list pages and the new-record form pages are not guarded.

  lemma FuncionarioListUnguarded()
    ensures Resolve("/funcionarios") == Resolution(FuncionarioListPage, false, map[])
  {
    ResolveSingle("funcionarios", 3);
  }

  lemma FuncionarioNewFormUnguarded()
    ensures Resolve("/funcionario") == Resolution(FuncionarioFormPage, false, map[])
  {
    ResolveSingle("funcionario", 4);
  }

  lemma ClienteListUnguarded()
    ensures Resolve("/clientes") == Resolution(ClienteListPage, false, map[])
  {
    ResolveSingle("clientes", 5);
  }

  lemma ClienteNewFormUnguarded()
    ensures Resolve("/cliente") == Resolution(ClienteFormPage, false, map[])
  {
    ResolveSingle("cliente", 6);
  }

  lemma ProdutoListUnguarded()
    ensures Resolve("/produtos") == Resolution(ProdutoListPage, false, map[])
  {
    ResolveSingle("produtos", 7);
  }

  lemma ProdutoNewFormUnguarded()
    ensures Resolve("/produto") == Resolution(ProdutoFormPage, false, map[])
  {
    ResolveSingle("produto", 8);
  }

  /** The path of a record page for `kind`, operation `opr` and id `id`. */
  function RecordPath(kind: string, opr: string, id: string): string
  {
    "/" + kind + "/" + opr + "/" + id
  }

  function RecordPage(kind: string): Option<Page>
  {
    if kind == "funcionario" then Some(FuncionarioFormPage)
    else if kind == "cliente" then Some(ClienteFormPage)
    else if kind == "produto" then Some(ProdutoFormPage)
    else None
  }

  /** `/{funcionario|cliente|produto}/:opr/:id` is guarded and binds the
      second and third segments to `opr` and `id`. */
  lemma ResolveRecordPath(kind: string, opr: string, id: string)
    requires RecordPage(kind).Some?
    requires opr != [] && id != [] && '/' !in opr && '/' !in id
    ensures Resolve(RecordPath(kind, opr, id))
      == Resolution(RecordPage(kind).value, true, map["opr" := opr, "id" := id])
  {
    var path := RecordPath(kind, opr, id);
    var pieces := [kind, opr, id];
    assert pieces[1..] == [opr, id] && pieces[1..][1..] == [id];
    assert Join([id]) == id;
    assert Join([opr, id]) == opr + "/" + id;
    assert Join(pieces) == kind + "/" + (opr + "/" + id);
    assert path == "/" + Join(pieces);
    assert path[|path| - 1] == id[|id| - 1];
    assert TrimTrailingSlashes(path) == path;
    assert path[1..] == Join(pieces);
    assert '/' !in kind;
    SplitJoin(pieces);
    assert Pieces(path) == Some(pieces);
    var i := if kind == "funcionario" then 9 else if kind == "cliente" then 10 else 11;
    RecordMatch(kind, pieces);
    assert Table[i].pattern == [Lit(kind), Param("opr"), Param("id")];
    ResolveIsTheMatch(path, i);
  }

  /** Only `/home` and the record pages are behind the guard. */
  lemma GuardedRoutes(path: string)
    ensures Resolve(path).guarded <==>
      Resolve(path).page == HomePage || "opr" in Resolve(path).params
  {
    if Pieces(path).Some? {
      var pieces := Pieces(path).value;
      if MatchesSome(path) {
        var i :| 0 <= i < |Table| && MatchPieces(Table[i].pattern, pieces).Some?;
        FirstMatchFinds(pieces, 0, i);
        if 9 <= i {
          RecordMatch(Table[i].pattern[0].text, pieces);
        } else {
          var pat := Table[i].pattern;
          assert |pat| <= 1 && |pieces| == |pat|;
          if |pieces| == 1 {
            assert pieces[1..] == [] && pat[1..] == [] && pat[0].Lit?;
            assert Bind(pat[1..], pieces[1..]) == Some(map[]);
          }
          assert MatchPieces(Table[i].pattern, pieces).value == map[];
        }
      } else {
        FirstMatchNone(pieces, 0);
      }
    }
  }
}
