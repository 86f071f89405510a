/**
 * The read-only parts of the handlers in gestao/views.py: the ordered
 * listings the pages show, as functions over the tables.
 */
module Queries {
  import opened Text
  import opened Sorting
  import opened Models

  type DocEntry = (int, Documento)

  /** One line of the client list: the name and the annotated document count. */
  datatype ClientRow = ClientRow(nomeEmpresa: string, docCount: nat)
  type ClientEntry = (int, ClientRow)
  type UserEntry = (int, User)

  /** order_by('-data_envio') */
  predicate NewerOrSame(a: DocEntry, b: DocEntry) {
    a.1.dataEnvio >= b.1.dataEnvio
  }

  /** order_by('nome_empresa') */
  predicate NameOrder(a: ClientEntry, b: ClientEntry) {
    LexLe(a.1.nomeEmpresa, b.1.nomeEmpresa)
  }

  /** order_by('username') */
  predicate UsernameOrder(a: UserEntry, b: UserEntry) {
    LexLe(a.1.username, b.1.username)
  }

  /** cliente.documentos.all().order_by('-data_envio') */
  function DocumentsNewestFirst(docs: map<int, Documento>, c: int): seq<DocEntry> {
    SortBy(Listing(DocumentsOf(docs, c)), NewerOrSame)
  }

  /** Cliente.objects.annotate(doc_count=Count('documentos')), one row per client. */
  function ClientRows(clients: map<int, Cliente>, docs: map<int, Documento>): map<int, ClientRow> {
    map k | k in clients :: ClientRow(clients[k].nomeEmpresa, |OwnedBy(docs, k)|)
  }

  /** ... .order_by('nome_empresa') */
  function ClientsByName(clients: map<int, Cliente>, docs: map<int, Documento>): seq<ClientEntry> {
    SortBy(Listing(ClientRows(clients, docs)), NameOrder)
  }

  /** User.objects.filter(is_staff=True) */
  function StaffUsers(users: map<int, User>): map<int, User> {
    map k | k in users && users[k].isStaff :: users[k]
  }

  /** ... .order_by('username') */
  function StaffByUsername(users: map<int, User>): seq<UserEntry> {
    SortBy(Listing(StaffUsers(users)), UsernameOrder)
  }

  lemma NameOrderIsTotalOrder()
    ensures Total(NameOrder) && Transitive(NameOrder)
  {
    forall a: ClientEntry, b: ClientEntry ensures NameOrder(a, b) || NameOrder(b, a) {
      LexLeTotal(a.1.nomeEmpresa, b.1.nomeEmpresa);
    }
    forall a: ClientEntry, b: ClientEntry, c: ClientEntry | NameOrder(a, b) && NameOrder(b, c)
      ensures NameOrder(a, c)
    {
      LexLeTransitive(a.1.nomeEmpresa, b.1.nomeEmpresa, c.1.nomeEmpresa);
    }
  }

  lemma UsernameOrderIsTotalOrder()
    ensures Total(UsernameOrder) && Transitive(UsernameOrder)
  {
    forall a: UserEntry, b: UserEntry ensures UsernameOrder(a, b) || UsernameOrder(b, a) {
      LexLeTotal(a.1.username, b.1.username);
    }
    forall a: UserEntry, b: UserEntry, c: UserEntry | UsernameOrder(a, b) && UsernameOrder(b, c)
      ensures UsernameOrder(a, c)
    {
      LexLeTransitive(a.1.username, b.1.username, c.1.username);
    }
  }

  /**
   * A client's document list holds exactly that client's documents, each
   * once, newest upload first.
   */
  lemma DocumentsNewestFirstSpec(docs: map<int, Documento>, c: int)
    ensures var r := DocumentsNewestFirst(docs, c);
      && |r| == |OwnedBy(docs, c)|
      && (forall e :: e in r <==> e.0 in docs && docs[e.0].cliente == c && e.1 == docs[e.0])
      && (forall i, j :: 0 <= i < j < |r| ==> r[i].1.dataEnvio >= r[j].1.dataEnvio)
  {
    var mine := DocumentsOf(docs, c);
    assert Total(NewerOrSame) && Transitive(NewerOrSame);
    SortedListingContents(mine, NewerOrSame);
    assert |mine| == |mine.Keys|;
  }

  /**
   * The client list holds every client once, with its name and the number of
   * documents it owns, in name order.
   */
  lemma ClientsByNameSpec(clients: map<int, Cliente>, docs: map<int, Documento>)
    ensures var r := ClientsByName(clients, docs);
      && |r| == |clients|
      && (forall e :: e in r <==>
            e.0 in clients && e.1 == ClientRow(clients[e.0].nomeEmpresa, |OwnedBy(docs, e.0)|))
      && (forall i, j :: 0 <= i < j < |r| ==> LexLe(r[i].1.nomeEmpresa, r[j].1.nomeEmpresa))
  {
    var rows := ClientRows(clients, docs);
    NameOrderIsTotalOrder();
    SortedListingContents(rows, NameOrder);
    assert rows.Keys == clients.Keys;
    assert |rows| == |rows.Keys| && |clients| == |clients.Keys|;
  }

  /** The account list holds every staff account once, and no other, in username order. */
  lemma StaffByUsernameSpec(users: map<int, User>)
    ensures var r := StaffByUsername(users);
      && |r| == |StaffUsers(users)|
      && (forall e :: e in r <==> e.0 in users && users[e.0].isStaff && e.1 == users[e.0])
      && (forall i, j :: 0 <= i < j < |r| ==> LexLe(r[i].1.username, r[j].1.username))
  {
    UsernameOrderIsTotalOrder();
    SortedListingContents(StaffUsers(users), UsernameOrder);
  }
}
