/**
 * The records of the portal (gestao/models.py) and the constraints the
 * database schema keeps on them: column length bounds, the unique tax id
 * (cnpj), the foreign key from every Documento to its Cliente with cascading
 * delete, and the upload timestamp that is written once. The staff accounts of
 * the framework's auth app are modelled here as well.
 */
module Models {
  import opened Wrappers

  const MaxNomeEmpresa := 255
  const MaxCnpj := 18
  const MaxSenha := 128
  const MaxTitulo := 200
  /** The length bound of the auth app's username column. */
  const MaxUsername := 150
  /** The length bound of the auth app's email column. */
  const MaxEmail := 254
  /** The length bound of the auth app's password column. */
  const MaxPassword := 128

  /** A client company. `senha` holds a password hash, never the password. */
  datatype Cliente = Cliente(nomeEmpresa: string, cnpj: string, senha: string)

  /**
   * A document owned by client `cliente`. `arquivo` is the stored file content,
   * an opaque byte string; `dataEnvio` is the upload time as a clock tick.
   */
  datatype Documento = Documento(cliente: int, titulo: string, arquivo: seq<bv8>, dataEnvio: int)

  /** A staff account of the framework's auth app; `password` holds a hash. */
  datatype User = User(username: string, email: string, password: string,
                       isStaff: bool, isSuperuser: bool, isActive: bool)

  /** Cliente.__str__ */
  function ClienteStr(c: Cliente): string {
    c.nomeEmpresa
  }

  /** Documento.__str__ */
  function DocumentoStr(d: Documento): string {
    d.titulo
  }

  /** The one-way password hash (make_password / set_password); left uninterpreted. */
  type Hasher = string -> string

  /** Every hash is non-empty and fits the 128-character senha column. */
  ghost predicate HashSound(hash: Hasher) {
    forall pw :: 0 < |hash(pw)| <= MaxSenha
  }

  /** check_password: the submitted password verifies against a stored hash. */
  predicate CheckPassword(hash: Hasher, password: string, encoded: string) {
    hash(password) == encoded
  }

  ghost predicate ClienteFits(c: Cliente) {
    |c.nomeEmpresa| <= MaxNomeEmpresa && |c.cnpj| <= MaxCnpj && |c.senha| <= MaxSenha
  }

  ghost predicate DocumentoFits(d: Documento) {
    |d.titulo| <= MaxTitulo
  }

  ghost predicate UserFits(u: User) {
    |u.username| <= MaxUsername && |u.email| <= MaxEmail && |u.password| <= MaxPassword
  }

  /** unique=True on cnpj: no two clients share a tax id. */
  ghost predicate UniqueCnpj(clients: map<int, Cliente>) {
    forall a, b :: a in clients && b in clients && clients[a].cnpj == clients[b].cnpj ==> a == b
  }

  /** unique=True on the auth app's username. */
  ghost predicate UniqueUsernames(users: map<int, User>) {
    forall a, b :: a in users && b in users && users[a].username == users[b].username ==> a == b
  }

  /** The foreign key: every document's owner exists. */
  ghost predicate DocsOwned(docs: map<int, Documento>, clients: map<int, Cliente>) {
    forall k :: k in docs ==> docs[k].cliente in clients
  }

  /** Everything the schema of gestao/models.py guarantees about the two tables. */
  ghost predicate Schema(clients: map<int, Cliente>, docs: map<int, Documento>) {
    && (forall k :: k in clients ==> ClienteFits(clients[k]))
    && (forall k :: k in docs ==> DocumentoFits(docs[k]))
    && UniqueCnpj(clients)
    && DocsOwned(docs, clients)
  }

  /**
   * auto_now_add: a document that exists before and after a change still has
   * the upload time it was created with.
   */
  ghost predicate TimestampsKept(before: map<int, Documento>, after: map<int, Documento>) {
    forall k :: k in before && k in after ==> after[k].dataEnvio == before[k].dataEnvio
  }

  /**
   * Saving a new document for an existing client keeps the schema, and every
   * earlier document keeps its upload time.
   */
  lemma AddDocumentKeepsSchema(clients: map<int, Cliente>, docs: map<int, Documento>, id: int, d: Documento)
    requires Schema(clients, docs) && id !in docs && d.cliente in clients && DocumentoFits(d)
    ensures Schema(clients, docs[id := d]) && TimestampsKept(docs, docs[id := d])
    ensures OwnedBy(docs[id := d], d.cliente) == OwnedBy(docs, d.cliente) + {id}
  {
  }

  /** The ids of client `c`'s documents (the related name `documentos`). */
  function OwnedBy(docs: map<int, Documento>, c: int): set<int> {
    set k | k in docs && docs[k].cliente == c
  }

  /** Client `c`'s documents as a table of their own. */
  function DocumentsOf(docs: map<int, Documento>, c: int): (r: map<int, Documento>)
    ensures r.Keys == OwnedBy(docs, c)
  {
    map k | k in docs && docs[k].cliente == c :: docs[k]
  }

  /** The documents that survive deleting client `c` (on_delete=CASCADE). */
  function CascadeDelete(docs: map<int, Documento>, c: int): map<int, Documento> {
    map k | k in docs && docs[k].cliente != c :: docs[k]
  }

  /**
   * Deleting a client removes exactly its documents, leaves every other
   * document and every other client's document set as it was, and keeps the
   * schema (no orphan documents).
   */
  lemma CascadeDeleteSpec(clients: map<int, Cliente>, docs: map<int, Documento>, c: int)
    requires Schema(clients, docs)
    ensures var rest := CascadeDelete(docs, c);
      && rest.Keys == docs.Keys - OwnedBy(docs, c)
      && (forall k :: k in rest ==> rest[k] == docs[k])
      && OwnedBy(rest, c) == {}
      && (forall o :: o != c ==> OwnedBy(rest, o) == OwnedBy(docs, o))
      && Schema(clients - {c}, rest)
      && TimestampsKept(docs, rest)
  {
    var rest := CascadeDelete(docs, c);
    forall o | o != c ensures OwnedBy(rest, o) == OwnedBy(docs, o) {
      assert forall k :: k in OwnedBy(docs, o) ==> k in rest;
    }
  }

  /** Cliente.objects.get(cnpj=...): the client with that tax id, if any. */
  function FindByCnpj(clients: map<int, Cliente>, cnpj: string): (r: Option<int>)
    requires UniqueCnpj(clients)
    ensures r.Some? ==> r.value in clients && clients[r.value].cnpj == cnpj
    ensures r.None? ==> forall k :: k in clients ==> clients[k].cnpj != cnpj
  {
    if exists k :: k in clients && clients[k].cnpj == cnpj then
      var k :| k in clients && clients[k].cnpj == cnpj;
      Some(k)
    else
      None
  }

  /** The auth app's lookup by username (get_by_natural_key). */
  function FindByUsername(users: map<int, User>, username: string): (r: Option<int>)
    requires UniqueUsernames(users)
    ensures r.Some? ==> r.value in users && users[r.value].username == username
    ensures r.None? ==> forall k :: k in users ==> users[k].username != username
  {
    if exists k :: k in users && users[k].username == username then
      var k :| k in users && users[k].username == username;
      Some(k)
    else
      None
  }

  /** User.objects.filter(email=...): the ids of every account with that email. */
  function UsersWithEmail(users: map<int, User>, email: string): set<int> {
    set k | k in users && users[k].email == email
  }
}
