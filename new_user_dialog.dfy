/**
 * The super-administrator's "new user" dialog: the permission catalog, the
 * default permissions of each role (cargo), the checkbox and role handlers that
 * edit the form, the gate on the submit button and the two-step creation
 * (sign-up with the authentication service, then a row in `profiles`).
 * The two remote calls are not modelled; their results are inputs.
 */
module NovoUsuarioSuperAdminDialog {
  import opened Wrappers
  import opened Toasts

  // ---------------------------------------------------------------------------
  // Permission catalog and role defaults
  // ---------------------------------------------------------------------------

  /**
   * The twelve permission ids. Every id that reaches the form comes from the
   * catalog (a checkbox or a role default), so the ids are an enumeration;
   * IdText gives the string stored on the user.
   */
  datatype PermissaoId =
    | Dashboard | Atendimento | Contatos | Usuarios | Setores | Configuracoes
    | Relatorios | Whatsapp | Chatbot | Kanban | ChatInterno | SuperAdmin

  /** The string form of an id, as stored in the user's metadata and profile. */
  function IdText(p: PermissaoId): string
  {
    match p
    case Dashboard => "dashboard"
    case Atendimento => "atendimento"
    case Contatos => "contatos"
    case Usuarios => "usuarios"
    case Setores => "setores"
    case Configuracoes => "configuracoes"
    case Relatorios => "relatorios"
    case Whatsapp => "whatsapp"
    case Chatbot => "chatbot"
    case Kanban => "kanban"
    case ChatInterno => "chat_interno"
    case SuperAdmin => "super_admin"
  }

  /** One entry of the permission catalog: its id and its checkbox label. */
  datatype Permissao = Permissao(id: PermissaoId, caption: string)

  /** The fixed catalog of the twelve permissions, in display order. */
  const PermissoesDisponiveis: seq<Permissao> := [
    Permissao(Dashboard, "Visualizar Dashboard"),
    Permissao(Atendimento, "Acesso ao Atendimento"),
    Permissao(Contatos, "Gerenciar Contatos"),
    Permissao(Usuarios, "Gerenciar Usuários"),
    Permissao(Setores, "Gerenciar Setores"),
    Permissao(Configuracoes, "Configurações do Sistema"),
    Permissao(Relatorios, "Visualizar Relatórios"),
    Permissao(Whatsapp, "Gerenciar WhatsApp"),
    Permissao(Chatbot, "Gerenciar Chatbot"),
    Permissao(Kanban, "Acesso ao Kanban"),
    Permissao(ChatInterno, "Chat Interno"),
    Permissao(SuperAdmin, "Super Administrador")
  ]

  /** The ids of a list of catalog entries, in order (`.map(p => p.id)`). */
  function Ids(ps: seq<Permissao>): (r: seq<PermissaoId>)
    ensures |r| == |ps|
    ensures forall i :: 0 <= i < |ps| ==> r[i] == ps[i].id
  {
    seq(|ps|, i requires 0 <= i < |ps| => ps[i].id)
  }

  /** The entries whose id differs from `x`, in order (`.filter(p => p.id !== x)`). */
  function WithoutId(ps: seq<Permissao>, x: PermissaoId): seq<Permissao>
  {
    if ps == [] then []
    else if ps[0].id != x then [ps[0]] + WithoutId(ps[1..], x)
    else WithoutId(ps[1..], x)
  }

  /** The ids of the whole catalog. */
  function CatalogIds(): seq<PermissaoId>
  {
    Ids(PermissoesDisponiveis)
  }

  /** Every occurrence of `x` removed, the rest kept in order (`.filter(p => p !== x)`). */
  function RemoveAll(ps: seq<PermissaoId>, x: PermissaoId): (r: seq<PermissaoId>)
    ensures multiset(r) == multiset(ps)[x := 0]
    ensures forall y :: y in r <==> y in ps && y != x
  {
    if ps == [] then []
    else
      assert ps == [ps[0]] + ps[1..];
      if ps[0] != x then [ps[0]] + RemoveAll(ps[1..], x) else RemoveAll(ps[1..], x)
  }

  /**
   * The default permissions granted to a role; any unknown role gets the
   * `usuario` list. Every role gets dashboard, atendimento and chat_interno,
   * and only `super_admin` gets super_admin.
   */
  function PermissoesPorCargo(cargo: string): (r: seq<PermissaoId>)
    ensures SuperAdmin in r <==> cargo == "super_admin"
  {
    if cargo == "super_admin" then CatalogIdsAre(); Ids(PermissoesDisponiveis)
    else if cargo == "admin" then AdminIds(); Ids(WithoutId(PermissoesDisponiveis, SuperAdmin))
    else if cargo == "supervisor" then
      [Dashboard, Atendimento, Contatos, Usuarios, Relatorios, Kanban, ChatInterno]
    else if cargo == "agente" then [Dashboard, Atendimento, Contatos, Kanban, ChatInterno]
    else [Dashboard, Atendimento, ChatInterno]
  }

  /** No id occurs twice. */
  predicate Distinct(s: seq<PermissaoId>)
  {
    forall i, j :: 0 <= i < j < |s| ==> s[i] != s[j]
  }

  /** Every id of `a` also occurs in `b`. */
  predicate Within(a: seq<PermissaoId>, b: seq<PermissaoId>)
  {
    forall i :: 0 <= i < |a| ==> a[i] in b
  }

  /** The catalog ids, in catalog order. */
  lemma CatalogIdsAre()
    ensures CatalogIds() == [Dashboard, Atendimento, Contatos, Usuarios, Setores, Configuracoes,
                             Relatorios, Whatsapp, Chatbot, Kanban, ChatInterno, SuperAdmin]
  {
    var want := [Dashboard, Atendimento, Contatos, Usuarios, Setores, Configuracoes,
                 Relatorios, Whatsapp, Chatbot, Kanban, ChatInterno, SuperAdmin];
    var ids := CatalogIds();
    assert |ids| == |want|;
    forall i | 0 <= i < |want| ensures ids[i] == want[i] {
      assert ids[i] == PermissoesDisponiveis[i].id;
    }
  }

  /** Where an id stands in the catalog. */
  function CatalogPosition(p: PermissaoId): (n: nat)
    ensures n < |PermissoesDisponiveis|
  {
    match p
    case Dashboard => 0
    case Atendimento => 1
    case Contatos => 2
    case Usuarios => 3
    case Setores => 4
    case Configuracoes => 5
    case Relatorios => 6
    case Whatsapp => 7
    case Chatbot => 8
    case Kanban => 9
    case ChatInterno => 10
    case SuperAdmin => 11
  }

  /** The ids of `s` appear in the same relative order as in the catalog. */
  predicate InCatalogOrder(s: seq<PermissaoId>)
  {
    forall i, j :: 0 <= i < j < |s| ==> CatalogPosition(s[i]) < CatalogPosition(s[j])
  }

  /** CatalogPosition is exactly the index of each id in the catalog. */
  lemma CatalogPositions(p: PermissaoId)
    ensures CatalogIds()[CatalogPosition(p)] == p
    ensures forall i :: 0 <= i < |CatalogIds()| ==> CatalogPosition(CatalogIds()[i]) == i
  {
    CatalogIdsAre();
  }

  /** A list in catalog order has no duplicates. */
  lemma OrderedIsDistinct(s: seq<PermissaoId>)
    requires InCatalogOrder(s)
    ensures Distinct(s)
  {
  }

  /** The catalog holds every id, exactly once, in catalog order. */
  lemma CatalogComplete(p: PermissaoId)
    ensures p in CatalogIds()
    ensures InCatalogOrder(CatalogIds()) && Distinct(CatalogIds())
  {
    CatalogPositions(p);
    OrderedIsDistinct(CatalogIds());
  }

  /** Mapping ids commutes with dropping an id: filtering entries then taking ids equals RemoveAll on the ids. */
  lemma {:induction false} IdsWithoutId(ps: seq<Permissao>, x: PermissaoId)
    ensures Ids(WithoutId(ps, x)) == RemoveAll(Ids(ps), x)
  {
    if ps != [] {
      IdsWithoutId(ps[1..], x);
      assert Ids(ps)[1..] == Ids(ps[1..]);
    }
  }

  /** RemoveAll distributes over concatenation, so it keeps the order of the ids it keeps. */
  lemma {:induction false} RemoveAllAppend(a: seq<PermissaoId>, b: seq<PermissaoId>, x: PermissaoId)
    ensures RemoveAll(a + b, x) == RemoveAll(a, x) + RemoveAll(b, x)
  {
    if a == [] {
      assert a + b == b;
    } else {
      assert (a + b)[0] == a[0];
      assert (a + b)[1..] == a[1..] + b;
      RemoveAllAppend(a[1..], b, x);
    }
  }

  /** Removing an id that is not there changes nothing. */
  lemma {:induction false} RemoveAllAbsent(ps: seq<PermissaoId>, x: PermissaoId)
    requires x !in ps
    ensures RemoveAll(ps, x) == ps
  {
    if ps != [] {
      RemoveAllAbsent(ps[1..], x);
    }
  }

  /** The tail of a duplicate-free list is duplicate-free and lacks the head. */
  lemma DistinctTail(ps: seq<PermissaoId>)
    requires ps != [] && Distinct(ps)
    ensures Distinct(ps[1..]) && ps[0] !in ps[1..]
  {
    forall i, j | 0 <= i < j < |ps[1..]| ensures ps[1..][i] != ps[1..][j] {
      assert ps[1..][i] == ps[i + 1] && ps[1..][j] == ps[j + 1];
    }
    forall k | 0 <= k < |ps[1..]| ensures ps[1..][k] != ps[0] {
      assert ps[1..][k] == ps[k + 1];
    }
  }

  /** Putting a new id in front of a duplicate-free list keeps it duplicate-free. */
  lemma DistinctCons(p: PermissaoId, rest: seq<PermissaoId>)
    requires p !in rest && Distinct(rest)
    ensures Distinct([p] + rest)
  {
    var r := [p] + rest;
    forall i, j | 0 <= i < j < |r| ensures r[i] != r[j] {
      assert r[j] == rest[j - 1];
      if i > 0 {
        assert r[i] == rest[i - 1];
      }
    }
  }

  /** RemoveAll keeps a list without duplicates free of duplicates. */
  lemma {:induction false} RemoveAllDistinct(ps: seq<PermissaoId>, x: PermissaoId)
    requires Distinct(ps)
    ensures Distinct(RemoveAll(ps, x))
  {
    if ps != [] {
      DistinctTail(ps);
      RemoveAllDistinct(ps[1..], x);
      if ps[0] != x {
        DistinctCons(ps[0], RemoveAll(ps[1..], x));
      }
    }
  }

  /** `super_admin` is granted every catalog id, in catalog order. */
  lemma SuperAdminGetsCatalog()
    ensures PermissoesPorCargo("super_admin") == CatalogIds()
    ensures |PermissoesPorCargo("super_admin")| == |PermissoesDisponiveis| == 12
  {
  }

  /** Filtering after a prefix without `x` keeps the prefix. */
  lemma {:induction false} WithoutIdAppend(a: seq<Permissao>, b: seq<Permissao>, x: PermissaoId)
    requires forall i :: 0 <= i < |a| ==> a[i].id != x
    ensures WithoutId(a + b, x) == a + WithoutId(b, x)
  {
    if a == [] {
      assert a + b == b;
    } else {
      WithoutIdAppend(a[1..], b, x);
      assert (a + b)[1..] == a[1..] + b;
    }
  }

  /** Filtering `super_admin` out of the catalog leaves the first eleven ids, in order. */
  lemma AdminIds()
    ensures Ids(WithoutId(PermissoesDisponiveis, SuperAdmin)) ==
              [Dashboard, Atendimento, Contatos, Usuarios, Setores, Configuracoes,
               Relatorios, Whatsapp, Chatbot, Kanban, ChatInterno]
  {
    var cat := PermissoesDisponiveis;
    assert cat == cat[..11] + [cat[11]];
    WithoutIdAppend(cat[..11], [cat[11]], SuperAdmin);
    assert WithoutId([cat[11]], SuperAdmin) == [];
    CatalogIdsAre();
  }

  /** `admin` is granted the catalog minus `super_admin`: the first eleven ids, in order. */
  lemma AdminDefaults()
    ensures PermissoesPorCargo("admin") == [Dashboard, Atendimento, Contatos, Usuarios, Setores, Configuracoes,
                                            Relatorios, Whatsapp, Chatbot, Kanban, ChatInterno]
  {
    AdminIds();
  }

  /** The admin list is the catalog ids with `super_admin` removed. */
  lemma AdminIsCatalogMinusSuperAdmin()
    ensures PermissoesPorCargo("admin") == RemoveAll(CatalogIds(), SuperAdmin)
  {
    IdsWithoutId(PermissoesDisponiveis, SuperAdmin);
  }

  /** The admin list is the first eleven catalog ids, so `super_admin` is the only one missing. */
  lemma AdminGetsCatalogButSuperAdmin()
    ensures PermissoesPorCargo("admin") == CatalogIds()[..11]
    ensures |PermissoesPorCargo("admin")| == 11 && SuperAdmin !in PermissoesPorCargo("admin")
  {
    AdminDefaults();
    CatalogIdsAre();
  }

  /** Role defaults are nested: usuario within agente within supervisor within admin within super_admin. */
  lemma DefaultsNested()
    ensures Within(PermissoesPorCargo("usuario"), PermissoesPorCargo("agente"))
    ensures Within(PermissoesPorCargo("agente"), PermissoesPorCargo("supervisor"))
    ensures Within(PermissoesPorCargo("supervisor"), PermissoesPorCargo("admin"))
    ensures Within(PermissoesPorCargo("admin"), PermissoesPorCargo("super_admin"))
  {
    AdminDefaults();
    CatalogIdsAre();
  }

  /** Each id standing before its neighbour in the catalog is enough for catalog order. */
  lemma {:induction false} AdjacentOrdered(s: seq<PermissaoId>)
    requires forall i :: 0 <= i < |s| - 1 ==> CatalogPosition(s[i]) < CatalogPosition(s[i + 1])
    ensures InCatalogOrder(s)
  {
    if |s| > 1 {
      AdjacentOrdered(s[1..]);
      forall j | 1 <= j < |s| ensures CatalogPosition(s[0]) < CatalogPosition(s[j]) {
        assert s[1..][j - 1] == s[j];
        if j > 1 {
          assert CatalogPosition(s[1..][0]) < CatalogPosition(s[1..][j - 1]);
        }
      }
      forall i, j | 0 <= i < j < |s| ensures CatalogPosition(s[i]) < CatalogPosition(s[j]) {
        if i > 0 {
          assert s[1..][i - 1] == s[i] && s[1..][j - 1] == s[j];
        }
      }
    }
  }

  /** The supervisor, agente and usuario lists as written follow catalog order. */
  lemma LiteralListsOrdered()
    ensures InCatalogOrder([Dashboard, Atendimento, Contatos, Usuarios, Relatorios, Kanban, ChatInterno])
    ensures InCatalogOrder([Dashboard, Atendimento, Contatos, Kanban, ChatInterno])
    ensures InCatalogOrder([Dashboard, Atendimento, ChatInterno])
  {
    AdjacentOrdered([Dashboard, Atendimento, Contatos, Usuarios, Relatorios, Kanban, ChatInterno]);
    AdjacentOrdered([Dashboard, Atendimento, Contatos, Kanban, ChatInterno]);
    AdjacentOrdered([Dashboard, Atendimento, ChatInterno]);
  }

  /** The three lists written out in the source follow catalog order. */
  lemma ListedDefaultsOrdered()
    ensures InCatalogOrder(PermissoesPorCargo("supervisor"))
    ensures InCatalogOrder(PermissoesPorCargo("agente"))
    ensures InCatalogOrder(PermissoesPorCargo("usuario"))
  {
    LiteralListsOrdered();
  }

  /** Every role's default list holds catalog ids only, in catalog order, and no id twice. */
  lemma DefaultsWellFormed(cargo: string)
    ensures Within(PermissoesPorCargo(cargo), CatalogIds())
    ensures InCatalogOrder(PermissoesPorCargo(cargo))
    ensures Distinct(PermissoesPorCargo(cargo))
  {
    var r := PermissoesPorCargo(cargo);
    CatalogComplete(Dashboard);
    if cargo == "super_admin" {
    } else if cargo == "admin" {
      AdminGetsCatalogButSuperAdmin();
    } else {
      ListedDefaultsOrdered();
      if cargo != "supervisor" && cargo != "agente" {
        UnknownCargoFallsBack(cargo);
      }
    }
    forall i | 0 <= i < |r| ensures r[i] in CatalogIds() {
      CatalogComplete(r[i]);
    }
    OrderedIsDistinct(r);
  }

  /** A role outside the four named ones falls back to the `usuario` defaults. */
  lemma UnknownCargoFallsBack(cargo: string)
    requires cargo != "super_admin" && cargo != "admin" && cargo != "supervisor" && cargo != "agente"
    ensures PermissoesPorCargo(cargo) == PermissoesPorCargo("usuario") == [Dashboard, Atendimento, ChatInterno]
  {
  }

  // ---------------------------------------------------------------------------
  // The checkbox handler
  // ---------------------------------------------------------------------------

  /** The permission list after a checkbox change: appended when checked, every occurrence removed otherwise. */
  function Toggled(ps: seq<PermissaoId>, id: PermissaoId, checked: bool): (r: seq<PermissaoId>)
    ensures id in r <==> checked
    ensures forall y :: y != id ==> (y in r <==> y in ps)
  {
    if checked then ps + [id] else RemoveAll(ps, id)
  }

  /** Checking appends at the end without a duplicate check; unchecking removes every copy and keeps the rest. */
  lemma ToggledEffect(ps: seq<PermissaoId>, id: PermissaoId, checked: bool)
    ensures checked ==> |Toggled(ps, id, true)| == |ps| + 1 && Toggled(ps, id, true)[|ps|] == id
    ensures checked ==> Toggled(ps, id, true)[..|ps|] == ps
    ensures !checked ==> id !in Toggled(ps, id, false)
    ensures !checked ==> forall y :: y != id ==> multiset(Toggled(ps, id, false))[y] == multiset(ps)[y]
  {
  }

  /** Checking then unchecking an id leaves what unchecking alone would; if it was absent, the original list. */
  lemma ToggleRoundTrip(ps: seq<PermissaoId>, id: PermissaoId)
    ensures Toggled(Toggled(ps, id, true), id, false) == RemoveAll(ps, id)
    ensures id !in ps ==> Toggled(Toggled(ps, id, true), id, false) == ps
  {
    RemoveAllAppend(ps, [id], id);
    assert RemoveAll([id], id) == [];
    if id !in ps {
      RemoveAllAbsent(ps, id);
    }
  }

  /** Checking an id that is already there leaves it in the list twice. */
  lemma CheckingTwiceDuplicates(ps: seq<PermissaoId>, id: PermissaoId)
    requires id in ps
    ensures !Distinct(Toggled(ps, id, true))
  {
    var k :| 0 <= k < |ps| && ps[k] == id;
    var r := Toggled(ps, id, true);
    assert r[k] == id && r[|ps|] == id;
  }

  /**
   * The checkbox shows `permissoes.includes(id)` and reports the negation when
   * clicked, so clicks keep the list free of duplicates.
   */
  lemma CheckboxClickKeepsDistinct(ps: seq<PermissaoId>, id: PermissaoId, checked: bool)
    requires Distinct(ps)
    requires checked <==> id !in ps
    ensures Distinct(Toggled(ps, id, checked))
  {
    if !checked {
      RemoveAllDistinct(ps, id);
    } else {
      var r := ps + [id];
      forall i, j | 0 <= i < j < |r| ensures r[i] != r[j] {
        if j == |ps| {
          assert r[i] == ps[i];
        } else {
          assert r[i] == ps[i] && r[j] == ps[j];
        }
      }
    }
  }

  // ---------------------------------------------------------------------------
  // Form data, the submit gate and the two-step creation
  // ---------------------------------------------------------------------------

  /** The dialog's form record. */
  datatype FormData = FormData(
    nome: string,
    email: string,
    senha: string,
    empresaId: string,
    cargo: string,
    setor: string,
    status: string,
    permissoes: seq<PermissaoId>)

  /** The form when the dialog is first mounted: role `usuario`, but no permission ticked. */
  const InitialFormData: FormData := FormData("", "", "", "", "usuario", "", "online", [])

  /** The form after a successful creation: as initially, with the `usuario` permissions written out. */
  const ResetFormData: FormData :=
    FormData("", "", "", "", "usuario", "", "online", [Dashboard, Atendimento, ChatInterno])

  /** The reset form carries the `usuario` defaults, whereas the initial form carries none. */
  lemma ResetAndInitial()
    ensures ResetFormData == InitialFormData.(permissoes := PermissoesPorCargo(InitialFormData.cargo))
    ensures InitialFormData.permissoes == [] != PermissoesPorCargo(InitialFormData.cargo)
  {
  }

  /** The submit button is enabled when not loading and both the company and the password are filled in. */
  predicate SubmitEnabled(loading: bool, f: FormData): (enabled: bool)
    ensures enabled ==> !loading && |f.empresaId| > 0 && |f.senha| > 0
    ensures !loading && |f.empresaId| > 0 && |f.senha| > 0 ==> enabled
  {
    !(loading || f.empresaId == "" || f.senha == "")
  }

  /** The gate: enabled exactly when idle with a company and a password; the other fields do not matter. */
  lemma SubmitGate(loading: bool, f: FormData, cargo: string, ps: seq<PermissaoId>)
    ensures SubmitEnabled(loading, f) <==> !loading && |f.empresaId| > 0 && |f.senha| > 0
    ensures SubmitEnabled(loading, f.(cargo := cargo, permissoes := ps)) == SubmitEnabled(loading, f)
  {
  }

  /** Neither the initial nor the reset form can be submitted: both lack a company and a password. */
  lemma FreshFormsCannotSubmit()
    ensures !SubmitEnabled(false, InitialFormData) && !SubmitEnabled(false, ResetFormData)
  {
  }

  /** `s.includes(t)`: `t` occurs as a contiguous piece of `s`, found by trying every start position. */
  predicate Includes(s: string, t: string): (found: bool)
    ensures found ==> |t| <= |s|
    ensures t <= s ==> found
    decreases |s|
  {
    t <= s || (|s| > 0 && Includes(s[1..], t))
  }

  /** Includes agrees with "some slice of `s` equals `t`". */
  lemma {:induction false} IncludesAt(s: string, t: string, i: nat)
    requires i + |t| <= |s| && s[i..i + |t|] == t
    ensures Includes(s, t)
  {
    if i > 0 {
      assert s[1..][i - 1..i - 1 + |t|] == s[i..i + |t|];
      IncludesAt(s[1..], t, i - 1);
    }
  }

  /** If `t` occurs in `s`, it occurs at some position. */
  lemma {:induction false} IncludesWitness(s: string, t: string) returns (i: nat)
    requires Includes(s, t)
    ensures i + |t| <= |s| && s[i..i + |t|] == t
  {
    if t <= s {
      i := 0;
    } else {
      var j := IncludesWitness(s[1..], t);
      assert s[1..][j..j + |t|] == s[j + 1..j + 1 + |t|];
      i := j + 1;
    }
  }

  /** The second test on the sign-up error message is subsumed by the first. */
  lemma LongerPhraseSubsumed(m: string)
    ensures Includes(m, "User already registered") ==> Includes(m, "already registered")
  {
    if Includes(m, "User already registered") {
      var i := IncludesWitness(m, "User already registered");
      assert m[i + 5..i + 23] == m[i..i + 23][5..];
      IncludesAt(m, "already registered", i + 5);
    }
  }

  /** What the sign-up call reports: an error with its message, no user, or the new user's id. */
  datatype SignUpResult = SignUpError(message: string) | SignUpNoUser | SignUpUser(userId: string)

  /** What the `profiles` insert reports. */
  datatype InsertResult = InsertOk | InsertError

  /** The row written to `profiles`: keyed by the new user's id, with the form's attributes. */
  datatype ProfileRow = ProfileRow(
    id: string,
    nome: string,
    email: string,
    empresaId: string,
    cargo: string,
    setor: string,
    status: string,
    permissoes: seq<string>)

  /** What a submission does: the profile row it tries to insert, if any, and the toast it shows. */
  datatype SubmitOutcome = SubmitOutcome(insert: Option<ProfileRow>, toast: Toast)

  const DuplicateEmailMessage := "Este email já está cadastrado no sistema."
  const NoUserMessage := "Falha ao criar usuário no sistema de autenticação."
  const PartialCreationMessage :=
    "Usuário criado no sistema de autenticação, mas houve erro ao criar o perfil. Entre em contato com o administrador."
  const FallbackErrorMessage := "Erro ao criar usuário"
  const SuccessPrefix := "Usuário criado com sucesso. Senha: "

  /** The permission list as the strings the backend stores. */
  function IdTexts(ps: seq<PermissaoId>): seq<string>
  {
    seq(|ps|, i requires 0 <= i < |ps| => IdText(ps[i]))
  }

  /** The profile row for the new user `userId`, copied from the form. */
  function ProfileRowFor(userId: string, f: FormData): ProfileRow
  {
    ProfileRow(userId, f.nome, f.email, f.empresaId, f.cargo, f.setor, f.status, IdTexts(f.permissoes))
  }

  /** The error toast of the catch block: the thrown message, or the fallback when that message is empty. */
  function ErrorToast(message: string): (t: Toast)
    ensures t.destructive && t.title == "Erro" && t.description != ""
    ensures message != "" ==> t.description == message
  {
    Toast("Erro", if message != "" then message else FallbackErrorMessage, true)
  }

  /** The outcome of submitting form `f` when sign-up answers `auth` and the insert, if tried, answers `insert`. */
  function SubmitResult(f: FormData, auth: SignUpResult, insert: InsertResult): (r: SubmitOutcome)
    ensures r.insert.Some? <==> auth.SignUpUser?
    ensures r.insert.Some? ==> r.insert.value.id == auth.userId
    ensures r.toast.destructive <==> r.toast.title == "Erro"
  {
    match auth
    case SignUpError(m) =>
      var message :=
        if Includes(m, "already registered") || Includes(m, "User already registered")
        then DuplicateEmailMessage else m;
      SubmitOutcome(None, ErrorToast(message))
    case SignUpNoUser =>
      SubmitOutcome(None, ErrorToast(NoUserMessage))
    case SignUpUser(id) =>
      match insert
      case InsertError => SubmitOutcome(Some(ProfileRowFor(id, f)), ErrorToast(PartialCreationMessage))
      case InsertOk => SubmitOutcome(Some(ProfileRowFor(id, f)), Toast("Sucesso", SuccessPrefix + f.senha, false))
  }

  /** How each sign-up and insert result is classified into the message shown. */
  lemma SubmitClassification(f: FormData, auth: SignUpResult, insert: InsertResult)
    ensures auth.SignUpError? && Includes(auth.message, "already registered") ==>
              SubmitResult(f, auth, insert).toast == Toast("Erro", DuplicateEmailMessage, true)
    ensures auth.SignUpError? && !Includes(auth.message, "already registered") && auth.message != "" ==>
              SubmitResult(f, auth, insert).toast == Toast("Erro", auth.message, true)
    ensures auth == SignUpError("") ==>
              SubmitResult(f, auth, insert).toast == Toast("Erro", FallbackErrorMessage, true)
    ensures auth.SignUpNoUser? ==>
              SubmitResult(f, auth, insert).toast == Toast("Erro", NoUserMessage, true)
    ensures auth.SignUpUser? && insert.InsertError? ==>
              SubmitResult(f, auth, insert).toast == Toast("Erro", PartialCreationMessage, true)
  {
    if auth.SignUpError? {
      LongerPhraseSubsumed(auth.message);
    }
  }

  /** A profile insert is attempted exactly when sign-up returned a user, and it is keyed by that user's id. */
  lemma InsertOnlyAfterSignUp(f: FormData, auth: SignUpResult, insert: InsertResult)
    ensures SubmitResult(f, auth, insert).insert.Some? <==> auth.SignUpUser?
    ensures auth.SignUpUser? ==>
              SubmitResult(f, auth, insert).insert == Some(ProfileRowFor(auth.userId, f))
    ensures auth.SignUpUser? ==>
              var row := SubmitResult(f, auth, insert).insert.value;
              row.id == auth.userId && row.email == f.email && row.cargo == f.cargo
              && |row.permissoes| == |f.permissoes|
              && forall i :: 0 <= i < |f.permissoes| ==> row.permissoes[i] == IdText(f.permissoes[i])
  {
  }

  /** Success is reported exactly when both steps succeed; every toast has a non-empty description. */
  lemma SuccessIffBothSteps(f: FormData, auth: SignUpResult, insert: InsertResult)
    ensures !SubmitResult(f, auth, insert).toast.destructive <==> auth.SignUpUser? && insert.InsertOk?
    ensures SubmitResult(f, auth, insert).toast.description != ""
  {
  }

  /** The partial-creation message is distinct from the duplicate-email, no-user and fallback messages. */
  lemma PartialMessageDistinct()
    ensures PartialCreationMessage != DuplicateEmailMessage
    ensures PartialCreationMessage != NoUserMessage
    ensures PartialCreationMessage != FallbackErrorMessage
  {
  }

  // ---------------------------------------------------------------------------
  // The dialog's state
  // ---------------------------------------------------------------------------

  /** The dialog component: its form record and its loading flag. */
  class Dialog {
    var formData: FormData
    var loading: bool

    constructor ()
      ensures formData == InitialFormData && !loading
      ensures !CanSubmit()
    {
      formData := InitialFormData;
      loading := false;
    }

    /** Whether the "Criar Usuário" button is enabled: only when idle with a company and a password. */
    predicate CanSubmit(): (enabled: bool)
      reads this
      ensures enabled ==> !loading && |formData.empresaId| > 0 && |formData.senha| > 0
    {
      SubmitEnabled(loading, formData)
    }

    /** Selecting a role replaces the permissions with that role's defaults, discarding manual edits. */
    method HandleCargoChange(cargo: string)
      modifies this
      ensures formData == old(formData).(cargo := cargo, permissoes := PermissoesPorCargo(cargo))
      ensures loading == old(loading)
    {
      var permissoesPadrao := PermissoesPorCargo(cargo);
      formData := formData.(cargo := cargo, permissoes := permissoesPadrao);
    }

    /** A checkbox change edits the permission list only. */
    method HandlePermissaoChange(permissaoId: PermissaoId, checked: bool)
      modifies this
      ensures formData == old(formData).(permissoes := Toggled(old(formData.permissoes), permissaoId, checked))
      ensures loading == old(loading)
    {
      var permissoes := if checked then formData.permissoes + [permissaoId]
                        else RemoveAll(formData.permissoes, permissaoId);
      formData := formData.(permissoes := permissoes);
    }

    /**
     * Submitting the form, given what the two remote calls answer. Returns the
     * row the insert is sent (when it is sent at all), the toast, and whether
     * the parent's `onUsuarioCreated` is called. The form is reset only on
     * success, and loading is off again at the end.
     */
    method HandleSubmit(auth: SignUpResult, insert: InsertResult)
        returns (sent: Option<ProfileRow>, toast: Toast, created: bool)
      modifies this
      ensures sent == SubmitResult(old(formData), auth, insert).insert
      ensures toast == SubmitResult(old(formData), auth, insert).toast
      ensures created <==> auth.SignUpUser? && insert.InsertOk?
      ensures formData == if created then ResetFormData else old(formData)
      ensures !loading
    {
      loading := true;
      var thrown: Option<string> := None;
      sent := None;
      created := false;
      match auth {
        case SignUpError(m) =>
          if Includes(m, "already registered") || Includes(m, "User already registered") {
            thrown := Some(DuplicateEmailMessage);
          } else {
            thrown := Some(m);
          }
        case SignUpNoUser =>
          thrown := Some(NoUserMessage);
        case SignUpUser(id) =>
          sent := Some(ProfileRowFor(id, formData));
          if insert.InsertError? {
            thrown := Some(PartialCreationMessage);
          }
      }
      if thrown.None? {
        toast := Toast("Sucesso", SuccessPrefix + formData.senha, false);
        formData := ResetFormData;
        created := true;
      } else {
        toast := ErrorToast(thrown.value);
      }
      loading := false;
    }
  }
}
