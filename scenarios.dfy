/**
 * End-to-end request sequences on a fresh portal. Each one composes the
 * handler contracts and states what the visitor finally sees.
 */
module Scenarios {
  import opened Wrappers
  import Text
  import opened Models
  import opened Forms
  import opened Queries
  import opened Views

  const AdminEmail := "admin@topambiental.com"
  const AcmeCnpj := "12.345.678/0001-90"

  /** A fresh portal with its bootstrap administrator logged in. */
  method AdminSignedIn(hash: Hasher) returns (p: Portal)
    requires HashSound(hash)
    ensures fresh(p) && p.Valid() && p.hash == hash && p.Privileged()
    ensures p.clients == map[] && p.docs == map[] && p.sessionClient == None && p.currentUser == Some(1)
    ensures p.users == map[1 := User("admin", AdminEmail, hash("admin-pw"), true, true, true)]
    ensures p.nextClientId == 1 && p.nextDocId == 1 && p.nextUserId == 2
  {
    p := new Portal(hash, "admin", AdminEmail, "admin-pw");
    assert UsersWithEmail(p.users, AdminEmail) == {1};
    var o := p.AdminLogin(Post, AdminLoginInput(AdminEmail, "admin-pw"));
  }

  /**
   * The administrator registers the Acme client and the client signs in with
   * the password it was given.
   */
  method AcmeSignedIn(hash: Hasher) returns (p: Portal)
    requires HashSound(hash)
    ensures fresh(p) && p.Valid() && p.hash == hash && p.Privileged()
    ensures p.clients == map[1 := Cliente("Acme", AcmeCnpj, hash("s3cret"))]
    ensures p.docs == map[] && p.sessionClient == Some(1) && p.nextDocId == 1
  {
    p := AdminSignedIn(hash);
    var acme := ClienteInput("Acme", AcmeCnpj, "s3cret");
    assert Text.Strip("Acme") == "Acme";
    assert Text.Strip(AcmeCnpj) == AcmeCnpj;
    assert Text.Strip("s3cret") == "s3cret";
    assert ClienteFormValid(p.clients, acme, None);
    var o := p.ClientCreate(Post, acme);
    assert ClientAuthenticate(p.clients, AcmeCnpj, "s3cret", hash) == Some(1);
    o := p.ClientLogin(Post, ClientLoginInput(AcmeCnpj, "s3cret"));
  }

  /** The only document of a client is the whole newest-first listing. */
  lemma SingleDocumentListing(d: Documento)
    ensures DocumentsNewestFirst(map[1 := d], d.cliente) == [(1, d)]
  {
    var docs := map[1 := d];
    DocumentsNewestFirstSpec(docs, d.cliente);
    assert OwnedBy(docs, d.cliente) == {1};
    var r := DocumentsNewestFirst(docs, d.cliente);
    assert r[0] in r;
  }

  /**
   * A signed-in client sees an empty dashboard; after the administrator
   * uploads a contract the dashboard lists exactly that document.
   */
  method UploadReachesClientDashboard(hash: Hasher) returns (before: Outcome, after: Outcome)
    requires HashSound(hash)
    ensures before == Outcome(Render(ClientDashboard(1, [])), None)
    ensures after == Outcome(Render(ClientDashboard(1, [(1, Documento(1, "Contract", [1, 2, 3], 100))])), None)
  {
    var p := AcmeSignedIn(hash);
    before := p.ClientDashboardView();
    DocumentsNewestFirstSpec(map[], 1);
    assert Text.Strip("Contract") == "Contract";
    var o := p.ClientDetailView(1, Post, DocumentoInput("Contract", Some([1, 2, 3])), 100);
    SingleDocumentListing(Documento(1, "Contract", [1, 2, 3], 100));
    after := p.ClientDashboardView();
  }

  /**
   * Deleting a signed-in client leaves a stale session id behind: the next
   * dashboard visit purges it, and the one after that finds no session.
   */
  method StaleSessionPurgedOnce(hash: Hasher) returns (first: Outcome, second: Outcome)
    requires HashSound(hash)
    ensures first == Outcome(Redirect(ClientLoginPage), Some(SessionInvalid))
    ensures second == Outcome(Redirect(ClientLoginPage), Some(Unauthorized))
  {
    var p := AcmeSignedIn(hash);
    var o := p.ClientDelete(1, Post);
    first := p.ClientDashboardView();
    second := p.ClientDashboardView();
  }

  /**
   * Editing a client with the senha left blank keeps its password: after
   * signing out, the client signs in again with the old one.
   */
  method BlankSenhaKeepsPassword(hash: Hasher) returns (login: Outcome)
    requires HashSound(hash)
    ensures login == Outcome(Redirect(ClientDashboardPage), None)
  {
    var p := AcmeSignedIn(hash);
    var o := p.ClientLogout();
    var edit := ClienteInput("Acme Ltda", AcmeCnpj, "  ");
    assert Text.Strip("Acme Ltda") == "Acme Ltda";
    assert Text.Strip(AcmeCnpj) == AcmeCnpj;
    assert Text.Blank("  ");
    assert ClienteFormValid(p.clients, edit, Some(1));
    o := p.ClientUpdate(1, Post, edit);
    assert p.clients[1].senha == hash("s3cret");
    assert ClientAuthenticate(p.clients, AcmeCnpj, "s3cret", hash) == Some(1);
    login := p.ClientLogin(Post, ClientLoginInput(AcmeCnpj, "s3cret"));
  }

  /**
   * An administrator cannot delete their own account by GET or by POST, and
   * can delete another administrator's.
   */
  method AdminCannotDeleteSelf(hash: Hasher) returns (byPost: Outcome, byGet: Outcome, other: Outcome, remaining: map<int, User>)
    requires HashSound(hash)
    ensures byPost == byGet == Outcome(Redirect(UserListPage), Some(SelfDeleteRejected))
    ensures other == Outcome(Redirect(UserListPage), Some(AdminDeleted("bob")))
    ensures remaining == map[1 := User("admin", AdminEmail, hash("admin-pw"), true, true, true)]
  {
    var p := AdminSignedIn(hash);
    assert Text.Strip("bob") == "bob";
    assert Text.Strip("bob@topambiental.com") == "bob@topambiental.com";
    assert Text.Strip("bob-pw") == "bob-pw";
    var o := p.UserCreate(Post, UserInput("bob", "bob@topambiental.com", "bob-pw"));
    assert 2 in p.users && p.users[2].username == "bob";
    byPost := p.UserDelete(1, Post);
    byGet := p.UserDelete(1, Get);
    other := p.UserDelete(2, Post);
    remaining := p.users;
  }

  /**
   * Client sign-out is idempotent and leaves the administrator signed in on
   * the same browser.
   */
  method ClientLogoutTwice(hash: Hasher) returns (first: Outcome, second: Outcome, adminStillSignedIn: bool)
    requires HashSound(hash)
    ensures first == second == Outcome(Redirect(ClientLoginPage), Some(SignedOut))
    ensures adminStillSignedIn
  {
    var p := AcmeSignedIn(hash);
    first := p.ClientLogout();
    second := p.ClientLogout();
    adminStillSignedIn := p.Privileged();
  }
}
