/**
 * The request handlers of gestao/views.py as operations on one portal: the
 * tables, the browser session's client slot (`cliente_id`) and the session's
 * authenticated staff account. Rendering, redirects and flash messages become
 * an Outcome value; everything a handler saves or deletes is a change to the
 * Portal's fields.
 */
module Views {
  import opened Wrappers
  import opened Text
  import Sorting
  import opened Models
  import opened Forms
  import opened Queries

  /** request.method: anything that is not POST takes the GET branch. */
  datatype HttpMethod = Get | Post

  /** Named URLs a handler redirects to; LoginUrl is where user_passes_test sends a refused request. */
  datatype Route =
    | LoginUrl | AdminLoginPage | AdminDashboardPage | ClientLoginPage | ClientDashboardPage
    | ClientListPage | ClientDetailPage(pk: int) | UserListPage

  /** The template a handler renders, with the data it passes to it. */
  datatype Page =
    | AdminLoginForm | ClientLoginForm
    | AdminDashboard(totalClientes: nat, totalDocs: nat)
    | ClientList(clientes: seq<ClientEntry>)
    | ClientCreateForm | ClientEditForm(pk: int) | ClientConfirmDelete(pk: int)
    | ClientDetail(pk: int, documentos: seq<DocEntry>)
    | UserList(users: seq<UserEntry>) | UserCreateForm | UserConfirmDelete(pk: int)
    | ClientDashboard(pk: int, documentos: seq<DocEntry>)

  datatype Response = Redirect(to: Route) | Render(page: Page) | NotFound | ServerError

  /** The message a handler queues for the next page. */
  datatype Flash =
    | AdminCredentialsInvalid | AdminNotFound | ClientCredentialsInvalid | SignedOut
    | ClientCreated(nomeEmpresa: string) | ClientUpdated | ClientDeleted(nomeEmpresa: string)
    | DocumentUploaded(titulo: string) | DocumentDeleted(titulo: string)
    | AdminCreated(username: string) | AdminDeleted(username: string) | SelfDeleteRejected
    | Unauthorized | SessionInvalid

  datatype Outcome = Outcome(response: Response, flash: Option<Flash>)

  /** What user_passes_test(is_admin) answers when the guard fails. */
  const GuardRedirect := Outcome(Redirect(LoginUrl), None)

  /** request.user: an anonymous visitor or an authenticated account. */
  datatype RequestUser = Anonymous | Authenticated(id: int, user: User)

  /** is_admin */
  predicate IsAdmin(u: RequestUser) {
    u.Authenticated? && u.user.isStaff
  }

  /** `if not cliente_id`: no value under the key, or a falsy one. */
  predicate NoClientSession(s: Option<int>) {
    s.None? || s.value == 0
  }

  /**
   * The framework's authenticate(username=..., password=...): the account with
   * that username, when the password verifies and the account is active.
   */
  function Authenticate(users: map<int, User>, username: string, password: string, hash: Hasher): (r: Option<int>)
    requires UniqueUsernames(users)
    ensures r.Some? ==> && r.value in users && users[r.value].username == username
                        && CheckPassword(hash, password, users[r.value].password) && users[r.value].isActive
    ensures r.None? ==> forall k :: k in users && users[k].username == username ==>
                          !(CheckPassword(hash, password, users[k].password) && users[k].isActive)
  {
    match FindByUsername(users, username)
    case None => None
    case Some(k) =>
      if CheckPassword(hash, password, users[k].password) && users[k].isActive then Some(k) else None
  }

  lemma SingletonUnique(s: set<int>)
    requires |s| == 1
    ensures forall a, b :: a in s && b in s ==> a == b
  {
    forall a, b | a in s && b in s ensures a == b {
      if a != b {
        assert {a, b} <= s;
        assert |{a, b}| == 2;
        Sorting.SubsetCardinality({a, b}, s);
        assert false;
      }
    }
  }

  datatype AdminAuth = NoAccount | ManyAccounts | Denied | Granted(id: int)

  /**
   * admin_login_view on a valid POST: look the account up by email, then
   * authenticate it by its username and require the staff flag.
   */
  function AdminAuthenticate(users: map<int, User>, email: string, password: string, hash: Hasher): (r: AdminAuth)
    requires UniqueUsernames(users)
    ensures r == NoAccount <==> UsersWithEmail(users, email) == {}
    ensures r == ManyAccounts <==> |UsersWithEmail(users, email)| > 1
    ensures r.Granted? ==> r.id in UsersWithEmail(users, email) && |UsersWithEmail(users, email)| == 1
    ensures |UsersWithEmail(users, email)| == 1 ==>
      forall k :: k in UsersWithEmail(users, email) ==>
        (r == Granted(k) <==> CheckPassword(hash, password, users[k].password) && users[k].isActive && users[k].isStaff)
  {
    var matches := UsersWithEmail(users, email);
    if matches == {} then NoAccount
    else if |matches| > 1 then ManyAccounts
    else
      SingletonUnique(matches);
      Sorting.NonEmptyHasElement(matches);
      var k :| k in matches;
      var auth := Authenticate(users, users[k].username, password, hash);
      if auth.Some? && users[auth.value].isStaff then Granted(auth.value) else Denied
  }

  /**
   * client_login_view on a valid POST: the client with that tax id, when the
   * password verifies against its hash. An unknown tax id and a wrong password
   * both give None.
   */
  function ClientAuthenticate(clients: map<int, Cliente>, cnpj: string, senha: string, hash: Hasher): (r: Option<int>)
    requires UniqueCnpj(clients)
    ensures r.Some? ==> && r.value in clients && clients[r.value].cnpj == cnpj
                        && CheckPassword(hash, senha, clients[r.value].senha)
    ensures r.None? ==> forall k :: k in clients && clients[k].cnpj == cnpj ==>
                          !CheckPassword(hash, senha, clients[k].senha)
  {
    match FindByCnpj(clients, cnpj)
    case None => None
    case Some(k) => if CheckPassword(hash, senha, clients[k].senha) then Some(k) else None
  }

  /**
   * The record client_update saves, as the handler is written. Validating the
   * bound form already copies every cleaned field into the instance, the
   * cleaned senha included, so the branch for a blank senha copies the
   * instance's senha, by then empty, onto itself.
   */
  function SaveUpdateAsWritten(instance: Cliente, f: ClienteInput, hash: Hasher): Cliente {
    var bound := instance.(nomeEmpresa := Strip(f.nomeEmpresa), cnpj := Strip(f.cnpj), senha := Strip(f.senha));
    if Strip(f.senha) != "" then bound.(senha := hash(Strip(f.senha)))
    else bound.(senha := bound.senha)
  }

  /** As written, saving an edit with a blank senha erases the hash: no password verifies afterwards. */
  lemma BlankSenhaAsWrittenLocksClientOut(instance: Cliente, f: ClienteInput, hash: Hasher)
    requires HashSound(hash) && Blank(f.senha)
    ensures SaveUpdateAsWritten(instance, f, hash).senha == ""
    ensures instance.senha != "" ==> SaveUpdateAsWritten(instance, f, hash).senha != instance.senha
    ensures forall pw :: !CheckPassword(hash, pw, SaveUpdateAsWritten(instance, f, hash).senha)
  {
    StripEmptyIffBlank(f.senha);
    forall pw ensures !CheckPassword(hash, pw, "") {
      assert |hash(pw)| > 0;
    }
  }

  /**
   * The record client_update is meant to save: name and tax id as submitted;
   * a blank senha keeps the stored hash, any other replaces it with its hash.
   */
  function SaveUpdate(instance: Cliente, f: ClienteInput, hash: Hasher): (r: Cliente)
    ensures r.nomeEmpresa == Strip(f.nomeEmpresa) && r.cnpj == Strip(f.cnpj)
    ensures Blank(f.senha) ==> r.senha == instance.senha
    ensures !Blank(f.senha) ==> r.senha == hash(Strip(f.senha)) && CheckPassword(hash, Strip(f.senha), r.senha)
  {
    StripEmptyIffBlank(f.senha);
    Cliente(Strip(f.nomeEmpresa), Strip(f.cnpj),
            if Strip(f.senha) != "" then hash(Strip(f.senha)) else instance.senha)
  }

  class Portal {
    const hash: Hasher
    var clients: map<int, Cliente>
    var docs: map<int, Documento>
    var users: map<int, User>
    /** request.session['cliente_id'] */
    var sessionClient: Option<int>
    /** The account the framework's session is logged in as. */
    var currentUser: Option<int>
    /** The next primary key each table hands out. */
    var nextClientId: int
    var nextDocId: int
    var nextUserId: int

    ghost predicate Valid()
      reads this
    {
      && HashSound(hash)
      && Schema(clients, docs)
      && UniqueUsernames(users)
      && (forall k :: k in users ==> UserFits(users[k]))
      && 1 <= nextClientId && 1 <= nextDocId && 1 <= nextUserId
      && (forall k :: k in clients ==> 1 <= k < nextClientId)
      && (forall k :: k in docs ==> 1 <= k < nextDocId)
      && (forall k :: k in users ==> 1 <= k < nextUserId)
      && (sessionClient.Some? ==> sessionClient.value >= 1)
    }

    /**
     * An empty portal with one superuser provisioned out of band (the
     * framework's createsuperuser command).
     */
    constructor (hash: Hasher, username: string, email: string, password: string)
      requires HashSound(hash) && |username| <= MaxUsername && |email| <= MaxEmail
      ensures Valid() && this.hash == hash
      ensures clients == map[] && docs == map[]
      ensures users == map[1 := User(username, email, hash(password), true, true, true)]
      ensures sessionClient == None && currentUser == None
      ensures nextClientId == 1 && nextDocId == 1 && nextUserId == 2
    {
      this.hash := hash;
      clients, docs := map[], map[];
      users := map[1 := User(username, email, hash(password), true, true, true)];
      sessionClient, currentUser := None, None;
      nextClientId, nextDocId, nextUserId := 1, 1, 2;
    }

    /** request.user: the session's account while it exists and is active. */
    function RequestUser(): RequestUser
      reads this
    {
      if currentUser.Some? && currentUser.value in users && users[currentUser.value].isActive
      then Authenticated(currentUser.value, users[currentUser.value])
      else Anonymous
    }

    /** is_admin(request.user), in terms of the stored account. */
    function Privileged(): (b: bool)
      reads this
      ensures b <==> && currentUser.Some? && currentUser.value in users
                     && users[currentUser.value].isActive && users[currentUser.value].isStaff
    {
      IsAdmin(RequestUser())
    }

    /** admin_login_view */
    method AdminLogin(m: HttpMethod, f: AdminLoginInput) returns (o: Outcome)
      requires Valid()
      modifies this
      ensures Valid()
      ensures old(Privileged()) ==> unchanged(this) && o == Outcome(Redirect(AdminDashboardPage), None)
      ensures !old(Privileged()) && (m == Get || !AdminLoginFormValid(f)) ==>
        unchanged(this) && o == Outcome(Render(AdminLoginForm), None)
      ensures !old(Privileged()) && m == Post && AdminLoginFormValid(f) ==>
        match AdminAuthenticate(old(users), Strip(f.email), Strip(f.password), hash)
        case Granted(k) =>
          && currentUser == Some(k) && Privileged()
          && clients == old(clients) && docs == old(docs) && users == old(users)
          && sessionClient == old(sessionClient)
          && nextClientId == old(nextClientId) && nextDocId == old(nextDocId) && nextUserId == old(nextUserId)
          && o == Outcome(Redirect(AdminDashboardPage), None)
        case NoAccount => unchanged(this) && o == Outcome(Render(AdminLoginForm), Some(AdminNotFound))
        case ManyAccounts => unchanged(this) && o == Outcome(ServerError, None)
        case Denied => unchanged(this) && o == Outcome(Render(AdminLoginForm), Some(AdminCredentialsInvalid))
    {
      if Privileged() {
        return Outcome(Redirect(AdminDashboardPage), None);
      }
      if m == Get || !AdminLoginFormValid(f) {
        return Outcome(Render(AdminLoginForm), None);
      }
      var r := AdminAuthenticate(users, Strip(f.email), Strip(f.password), hash);
      match r
      case NoAccount =>
        o := Outcome(Render(AdminLoginForm), Some(AdminNotFound));
      case ManyAccounts =>
        o := Outcome(ServerError, None);
      case Denied =>
        o := Outcome(Render(AdminLoginForm), Some(AdminCredentialsInvalid));
      case Granted(k) =>
        currentUser := Some(k);
        o := Outcome(Redirect(AdminDashboardPage), None);
    }

    /** client_login_view */
    method ClientLogin(m: HttpMethod, f: ClientLoginInput) returns (o: Outcome)
      requires Valid()
      modifies this
      ensures Valid()
      ensures old(sessionClient).Some? ==> unchanged(this) && o == Outcome(Redirect(ClientDashboardPage), None)
      ensures old(sessionClient).None? && (m == Get || !ClientLoginFormValid(f)) ==>
        unchanged(this) && o == Outcome(Render(ClientLoginForm), None)
      ensures old(sessionClient).None? && m == Post && ClientLoginFormValid(f) ==>
        var r := ClientAuthenticate(old(clients), Strip(f.cnpj), Strip(f.senha), hash);
        && (r.Some? ==>
              && sessionClient == r && currentUser == old(currentUser)
              && clients == old(clients) && docs == old(docs) && users == old(users)
              && nextClientId == old(nextClientId) && nextDocId == old(nextDocId) && nextUserId == old(nextUserId)
              && o == Outcome(Redirect(ClientDashboardPage), None))
        && (r.None? ==> unchanged(this) && o == Outcome(Render(ClientLoginForm), Some(ClientCredentialsInvalid)))
    {
      if sessionClient.Some? {
        return Outcome(Redirect(ClientDashboardPage), None);
      }
      if m == Get || !ClientLoginFormValid(f) {
        return Outcome(Render(ClientLoginForm), None);
      }
      var r := ClientAuthenticate(clients, Strip(f.cnpj), Strip(f.senha), hash);
      if r.Some? {
        sessionClient := r;
        o := Outcome(Redirect(ClientDashboardPage), None);
      } else {
        o := Outcome(Render(ClientLoginForm), Some(ClientCredentialsInvalid));
      }
    }

    /** user_logout: the framework's logout flushes the whole session. */
    method UserLogout() returns (o: Outcome)
      requires Valid()
      modifies this
      ensures Valid()
      ensures currentUser == None && sessionClient == None && !Privileged()
      ensures clients == old(clients) && docs == old(docs) && users == old(users)
      ensures nextClientId == old(nextClientId) && nextDocId == old(nextDocId) && nextUserId == old(nextUserId)
      ensures o == Outcome(Redirect(AdminLoginPage), Some(SignedOut))
    {
      currentUser := None;
      sessionClient := None;
      o := Outcome(Redirect(AdminLoginPage), Some(SignedOut));
    }

    /** client_logout_view: only the cliente_id key goes. */
    method ClientLogout() returns (o: Outcome)
      requires Valid()
      modifies this
      ensures Valid()
      ensures sessionClient == None && currentUser == old(currentUser)
      ensures clients == old(clients) && docs == old(docs) && users == old(users)
      ensures nextClientId == old(nextClientId) && nextDocId == old(nextDocId) && nextUserId == old(nextUserId)
      ensures o == Outcome(Redirect(ClientLoginPage), Some(SignedOut))
    {
      if sessionClient.Some? {
        sessionClient := None;
      }
      o := Outcome(Redirect(ClientLoginPage), Some(SignedOut));
    }

    /** admin_dashboard */
    method AdminDashboardView() returns (o: Outcome)
      requires Valid()
      ensures !Privileged() ==> o == GuardRedirect
      ensures Privileged() ==> o == Outcome(Render(AdminDashboard(|clients|, |docs|)), None)
    {
      if !Privileged() {
        return GuardRedirect;
      }
      o := Outcome(Render(AdminDashboard(|clients|, |docs|)), None);
    }

    /** client_list */
    method ClientListView() returns (o: Outcome)
      requires Valid()
      ensures !Privileged() ==> o == GuardRedirect
      ensures Privileged() ==> o == Outcome(Render(ClientList(ClientsByName(clients, docs))), None)
    {
      if !Privileged() {
        return GuardRedirect;
      }
      o := Outcome(Render(ClientList(ClientsByName(clients, docs))), None);
    }

    /** client_create */
    method ClientCreate(m: HttpMethod, f: ClienteInput) returns (o: Outcome)
      requires Valid()
      modifies this
      ensures Valid()
      ensures !old(Privileged()) ==> unchanged(this) && o == GuardRedirect
      ensures old(Privileged()) && (m == Get || !ClienteFormValid(old(clients), f, None)) ==>
        unchanged(this) && o == Outcome(Render(ClientCreateForm), None)
      ensures old(Privileged()) && m == Post && ClienteFormValid(old(clients), f, None) ==>
        var id := old(nextClientId);
        && id !in old(clients)
        && clients == old(clients)[id := Cliente(Strip(f.nomeEmpresa), Strip(f.cnpj), hash(Strip(f.senha)))]
        && docs == old(docs) && users == old(users)
        && sessionClient == old(sessionClient) && currentUser == old(currentUser)
        && nextClientId == id + 1 && nextDocId == old(nextDocId) && nextUserId == old(nextUserId)
        && o == Outcome(Redirect(ClientListPage), Some(ClientCreated(Strip(f.nomeEmpresa))))
    {
      if !Privileged() {
        return GuardRedirect;
      }
      if m == Get || !ClienteFormValid(clients, f, None) {
        return Outcome(Render(ClientCreateForm), None);
      }
      var cliente := Cliente(Strip(f.nomeEmpresa), Strip(f.cnpj), Strip(f.senha));
      cliente := cliente.(senha := hash(Strip(f.senha)));
      ClienteFormKeepsSchema(clients, docs, f, None, nextClientId, cliente.senha);
      clients := clients[nextClientId := cliente];
      nextClientId := nextClientId + 1;
      o := Outcome(Redirect(ClientListPage), Some(ClientCreated(cliente.nomeEmpresa)));
    }

    /** client_update, with the blank-senha branch keeping the stored hash (see SaveUpdateAsWritten). */
    method ClientUpdate(pk: int, m: HttpMethod, f: ClienteInput) returns (o: Outcome)
      requires Valid()
      modifies this
      ensures Valid()
      ensures !old(Privileged()) ==> unchanged(this) && o == GuardRedirect
      ensures old(Privileged()) && pk !in old(clients) ==> unchanged(this) && o == Outcome(NotFound, None)
      ensures old(Privileged()) && pk in old(clients) && (m == Get || !ClienteFormValid(old(clients), f, Some(pk))) ==>
        unchanged(this) && o == Outcome(Render(ClientEditForm(pk)), None)
      ensures old(Privileged()) && pk in old(clients) && m == Post && ClienteFormValid(old(clients), f, Some(pk)) ==>
        && clients == old(clients)[pk := SaveUpdate(old(clients)[pk], f, hash)]
        && (Blank(f.senha) ==> clients[pk].senha == old(clients)[pk].senha)
        && (!Blank(f.senha) ==> clients[pk].senha == hash(Strip(f.senha)))
        && docs == old(docs) && users == old(users)
        && sessionClient == old(sessionClient) && currentUser == old(currentUser)
        && nextClientId == old(nextClientId) && nextDocId == old(nextDocId) && nextUserId == old(nextUserId)
        && o == Outcome(Redirect(ClientListPage), Some(ClientUpdated))
    {
      if !Privileged() {
        return GuardRedirect;
      }
      if pk !in clients {
        return Outcome(NotFound, None);
      }
      if m == Get || !ClienteFormValid(clients, f, Some(pk)) {
        return Outcome(Render(ClientEditForm(pk)), None);
      }
      var updated := SaveUpdate(clients[pk], f, hash);
      ClienteFormKeepsSchema(clients, docs, f, Some(pk), pk, updated.senha);
      clients := clients[pk := updated];
      o := Outcome(Redirect(ClientListPage), Some(ClientUpdated));
    }

    /** client_delete: a POST deletes the client and, by cascade, its documents. */
    method ClientDelete(pk: int, m: HttpMethod) returns (o: Outcome)
      requires Valid()
      modifies this
      ensures Valid()
      ensures !old(Privileged()) ==> unchanged(this) && o == GuardRedirect
      ensures old(Privileged()) && pk !in old(clients) ==> unchanged(this) && o == Outcome(NotFound, None)
      ensures old(Privileged()) && pk in old(clients) && m == Get ==>
        unchanged(this) && o == Outcome(Render(ClientConfirmDelete(pk)), None)
      ensures old(Privileged()) && pk in old(clients) && m == Post ==>
        && clients == old(clients) - {pk}
        && docs == CascadeDelete(old(docs), pk) && TimestampsKept(old(docs), docs)
        && users == old(users)
        && sessionClient == old(sessionClient) && currentUser == old(currentUser)
        && nextClientId == old(nextClientId) && nextDocId == old(nextDocId) && nextUserId == old(nextUserId)
        && o == Outcome(Redirect(ClientListPage), Some(ClientDeleted(old(clients)[pk].nomeEmpresa)))
    {
      if !Privileged() {
        return GuardRedirect;
      }
      if pk !in clients {
        return Outcome(NotFound, None);
      }
      if m == Post {
        var nomeCliente := clients[pk].nomeEmpresa;
        CascadeDeleteSpec(clients, docs, pk);
        docs := CascadeDelete(docs, pk);
        clients := clients - {pk};
        o := Outcome(Redirect(ClientListPage), Some(ClientDeleted(nomeCliente)));
      } else {
        o := Outcome(Render(ClientConfirmDelete(pk)), None);
      }
    }

    /** client_detail: shows a client's documents; a POST uploads one more. */
    method ClientDetailView(pk: int, m: HttpMethod, f: DocumentoInput, now: int) returns (o: Outcome)
      requires Valid()
      modifies this
      ensures Valid()
      ensures !old(Privileged()) ==> unchanged(this) && o == GuardRedirect
      ensures old(Privileged()) && pk !in old(clients) ==> unchanged(this) && o == Outcome(NotFound, None)
      ensures old(Privileged()) && pk in old(clients) && (m == Get || !DocumentoFormValid(f)) ==>
        unchanged(this) && o == Outcome(Render(ClientDetail(pk, DocumentsNewestFirst(old(docs), pk))), None)
      ensures old(Privileged()) && pk in old(clients) && m == Post && DocumentoFormValid(f) ==>
        var id := old(nextDocId);
        && id !in old(docs)
        && docs == old(docs)[id := Documento(pk, Strip(f.titulo), f.arquivo.value, now)]
        && TimestampsKept(old(docs), docs)
        && clients == old(clients) && users == old(users)
        && sessionClient == old(sessionClient) && currentUser == old(currentUser)
        && nextClientId == old(nextClientId) && nextDocId == id + 1 && nextUserId == old(nextUserId)
        && o == Outcome(Redirect(ClientDetailPage(pk)), Some(DocumentUploaded(Strip(f.titulo))))
    {
      if !Privileged() {
        return GuardRedirect;
      }
      if pk !in clients {
        return Outcome(NotFound, None);
      }
      if m == Post && DocumentoFormValid(f) {
        var documento := Documento(pk, Strip(f.titulo), f.arquivo.value, now);
        AddDocumentKeepsSchema(clients, docs, nextDocId, documento);
        docs := docs[nextDocId := documento];
        nextDocId := nextDocId + 1;
        return Outcome(Redirect(ClientDetailPage(pk)), Some(DocumentUploaded(documento.titulo)));
      }
      // The documents query is lazy: it is evaluated when the page renders.
      o := Outcome(Render(ClientDetail(pk, DocumentsNewestFirst(docs, pk))), None);
    }

    /**
     * delete_document: the owner is read first; a POST empties the file field
     * and saves, then deletes the record. Every method ends on the owner's page.
     */
    method DeleteDocument(docPk: int, m: HttpMethod) returns (o: Outcome)
      requires Valid()
      modifies this
      ensures Valid()
      ensures !old(Privileged()) ==> unchanged(this) && o == GuardRedirect
      ensures old(Privileged()) && docPk !in old(docs) ==> unchanged(this) && o == Outcome(NotFound, None)
      ensures old(Privileged()) && docPk in old(docs) ==>
        o.response == Redirect(ClientDetailPage(old(docs)[docPk].cliente))
      ensures old(Privileged()) && docPk in old(docs) && m == Get ==> unchanged(this) && o.flash == None
      ensures old(Privileged()) && docPk in old(docs) && m == Post ==>
        && docs == old(docs) - {docPk} && TimestampsKept(old(docs), docs)
        && clients == old(clients) && users == old(users)
        && sessionClient == old(sessionClient) && currentUser == old(currentUser)
        && nextClientId == old(nextClientId) && nextDocId == old(nextDocId) && nextUserId == old(nextUserId)
        && o.flash == Some(DocumentDeleted(old(docs)[docPk].titulo))
    {
      if !Privileged() {
        return GuardRedirect;
      }
      if docPk !in docs {
        return Outcome(NotFound, None);
      }
      var documento := docs[docPk];
      var clientePk := documento.cliente;
      if m == Post {
        var nomeDoc := documento.titulo;
        docs := docs[docPk := documento.(arquivo := [])];
        docs := docs - {docPk};
        o := Outcome(Redirect(ClientDetailPage(clientePk)), Some(DocumentDeleted(nomeDoc)));
      } else {
        o := Outcome(Redirect(ClientDetailPage(clientePk)), None);
      }
    }

    /** user_list */
    method UserListView() returns (o: Outcome)
      requires Valid()
      ensures !Privileged() ==> o == GuardRedirect
      ensures Privileged() ==> o == Outcome(Render(UserList(StaffByUsername(users))), None)
    {
      if !Privileged() {
        return GuardRedirect;
      }
      o := Outcome(Render(UserList(StaffByUsername(users))), None);
    }

    /** user_create: the new account is always staff and superuser, with a hashed password. */
    method UserCreate(m: HttpMethod, f: UserInput) returns (o: Outcome)
      requires Valid()
      modifies this
      ensures Valid()
      ensures !old(Privileged()) ==> unchanged(this) && o == GuardRedirect
      ensures old(Privileged()) && (m == Get || !UserFormValid(old(users), f)) ==>
        unchanged(this) && o == Outcome(Render(UserCreateForm), None)
      ensures old(Privileged()) && m == Post && UserFormValid(old(users), f) ==>
        var id := old(nextUserId);
        && id !in old(users)
        && users == old(users)[id := User(Strip(f.username), Strip(f.email), hash(Strip(f.password)), true, true, true)]
        && clients == old(clients) && docs == old(docs)
        && sessionClient == old(sessionClient) && currentUser == old(currentUser) && Privileged()
        && nextClientId == old(nextClientId) && nextDocId == old(nextDocId) && nextUserId == id + 1
        && o == Outcome(Redirect(UserListPage), Some(AdminCreated(Strip(f.username))))
    {
      if !Privileged() {
        return GuardRedirect;
      }
      if m == Get || !UserFormValid(users, f) {
        return Outcome(Render(UserCreateForm), None);
      }
      var user := User(Strip(f.username), Strip(f.email), Strip(f.password), false, false, true);
      user := user.(password := hash(Strip(f.password)));
      user := user.(isStaff := true);
      user := user.(isSuperuser := true);
      UserFormKeepsUnique(users, f, nextUserId, user);
      users := users[nextUserId := user];
      nextUserId := nextUserId + 1;
      o := Outcome(Redirect(UserListPage), Some(AdminCreated(user.username)));
    }

    /** user_delete: the self-delete check comes before the method is looked at. */
    method UserDelete(pk: int, m: HttpMethod) returns (o: Outcome)
      requires Valid()
      modifies this
      ensures Valid()
      ensures !old(Privileged()) ==> unchanged(this) && o == GuardRedirect
      ensures old(Privileged()) && pk !in old(users) ==> unchanged(this) && o == Outcome(NotFound, None)
      ensures old(Privileged()) && pk in old(users) && old(currentUser) == Some(pk) ==>
        unchanged(this) && o == Outcome(Redirect(UserListPage), Some(SelfDeleteRejected))
      ensures old(Privileged()) && pk in old(users) && old(currentUser) != Some(pk) && m == Get ==>
        unchanged(this) && o == Outcome(Render(UserConfirmDelete(pk)), None)
      ensures old(Privileged()) && pk in old(users) && old(currentUser) != Some(pk) && m == Post ==>
        && users == old(users) - {pk} && Privileged()
        && clients == old(clients) && docs == old(docs)
        && sessionClient == old(sessionClient) && currentUser == old(currentUser)
        && nextClientId == old(nextClientId) && nextDocId == old(nextDocId) && nextUserId == old(nextUserId)
        && o == Outcome(Redirect(UserListPage), Some(AdminDeleted(old(users)[pk].username)))
    {
      if !Privileged() {
        return GuardRedirect;
      }
      if pk !in users {
        return Outcome(NotFound, None);
      }
      if RequestUser().id == pk {
        return Outcome(Redirect(UserListPage), Some(SelfDeleteRejected));
      }
      if m == Post {
        var username := users[pk].username;
        users := users - {pk};
        o := Outcome(Redirect(UserListPage), Some(AdminDeleted(username)));
      } else {
        o := Outcome(Render(UserConfirmDelete(pk)), None);
      }
    }

    /** client_dashboard: a stale cliente_id is purged from the session. */
    method ClientDashboardView() returns (o: Outcome)
      requires Valid()
      modifies this
      ensures Valid()
      ensures NoClientSession(old(sessionClient)) ==>
        unchanged(this) && o == Outcome(Redirect(ClientLoginPage), Some(Unauthorized))
      ensures !NoClientSession(old(sessionClient)) && old(sessionClient).value in old(clients) ==>
        var id := old(sessionClient).value;
        unchanged(this) && o == Outcome(Render(ClientDashboard(id, DocumentsNewestFirst(docs, id))), None)
      ensures !NoClientSession(old(sessionClient)) && old(sessionClient).value !in old(clients) ==>
        && sessionClient == None && currentUser == old(currentUser)
        && clients == old(clients) && docs == old(docs) && users == old(users)
        && nextClientId == old(nextClientId) && nextDocId == old(nextDocId) && nextUserId == old(nextUserId)
        && o == Outcome(Redirect(ClientLoginPage), Some(SessionInvalid))
    {
      if NoClientSession(sessionClient) {
        return Outcome(Redirect(ClientLoginPage), Some(Unauthorized));
      }
      var clienteId := sessionClient.value;
      if clienteId in clients {
        return Outcome(Render(ClientDashboard(clienteId, DocumentsNewestFirst(docs, clienteId))), None);
      }
      if sessionClient.Some? {
        sessionClient := None;
      }
      o := Outcome(Redirect(ClientLoginPage), Some(SessionInvalid));
    }
  }
}
