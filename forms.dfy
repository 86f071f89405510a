/**
 * What the portal's forms accept. Every text field is cleaned by stripping
 * surrounding whitespace; a required field rejects a value that is empty
 * after cleaning; model fields keep their column bounds; a ModelForm also
 * rejects a value that would break a unique column.
 */
module Forms {
  import opened Wrappers
  import opened Text
  import opened Models

  datatype ClienteInput = ClienteInput(nomeEmpresa: string, cnpj: string, senha: string)
  datatype DocumentoInput = DocumentoInput(titulo: string, arquivo: Option<seq<bv8>>)
  datatype UserInput = UserInput(username: string, email: string, password: string)
  datatype AdminLoginInput = AdminLoginInput(email: string, password: string)
  datatype ClientLoginInput = ClientLoginInput(cnpj: string, senha: string)

  /** Some client other than `instance` already has this tax id. */
  predicate CnpjTaken(clients: map<int, Cliente>, cnpj: string, instance: Option<int>) {
    exists k :: k in clients && clients[k].cnpj == cnpj && Some(k) != instance
  }

  /** Some account already has this username. */
  predicate UsernameTaken(users: map<int, User>, username: string) {
    exists k :: k in users && users[k].username == username
  }

  /**
   * ClienteForm.is_valid(), bound to `instance` when editing: company name and
   * tax id required and within their columns, the tax id not used by another
   * client. The senha field is optional; a non-blank one is checked against
   * the senha column's bound before it is hashed.
   */
  predicate ClienteFormValid(clients: map<int, Cliente>, f: ClienteInput, instance: Option<int>) {
    var nome, cnpj, senha := Strip(f.nomeEmpresa), Strip(f.cnpj), Strip(f.senha);
    && 0 < |nome| <= MaxNomeEmpresa && 0 < |cnpj| <= MaxCnpj && !CnpjTaken(clients, cnpj, instance)
    && |senha| <= MaxSenha
  }

  /** DocumentoForm.is_valid(): a title within its column and a non-empty file. */
  predicate DocumentoFormValid(f: DocumentoInput) {
    var titulo := Strip(f.titulo);
    0 < |titulo| <= MaxTitulo && f.arquivo.Some? && |f.arquivo.value| > 0
  }

  /**
   * UserForm.is_valid(): a new username within its column, an optional email,
   * and a password that fits the password column before it is hashed.
   */
  predicate UserFormValid(users: map<int, User>, f: UserInput) {
    var username := Strip(f.username);
    && 0 < |username| <= MaxUsername && !UsernameTaken(users, username)
    && |Strip(f.email)| <= MaxEmail
    && 0 < |Strip(f.password)| <= MaxPassword
  }

  /** AdminLoginForm.is_valid(): both fields required. */
  predicate AdminLoginFormValid(f: AdminLoginInput) {
    Strip(f.email) != "" && Strip(f.password) != ""
  }

  /** ClientLoginForm.is_valid(): both fields required. */
  predicate ClientLoginFormValid(f: ClientLoginInput) {
    Strip(f.cnpj) != "" && Strip(f.senha) != ""
  }

  /**
   * Saving what a valid ClienteForm cleaned, for a new id or for the edited
   * instance, keeps the schema: the bounds hold and the tax id stays unique.
   */
  lemma ClienteFormKeepsSchema(clients: map<int, Cliente>, docs: map<int, Documento>,
                               f: ClienteInput, instance: Option<int>, id: int, senha: string)
    requires Schema(clients, docs) && ClienteFormValid(clients, f, instance)
    requires instance.Some? ==> instance.value == id && id in clients
    requires instance.None? ==> id !in clients
    requires |senha| <= MaxSenha
    ensures Schema(clients[id := Cliente(Strip(f.nomeEmpresa), Strip(f.cnpj), senha)], docs)
  {
  }

  /** A valid account form never reuses a username, so adding the account keeps usernames unique. */
  lemma UserFormKeepsUnique(users: map<int, User>, f: UserInput, id: int, u: User)
    requires UniqueUsernames(users) && UserFormValid(users, f) && id !in users
    requires u.username == Strip(f.username)
    ensures UniqueUsernames(users[id := u])
  {
  }
}
