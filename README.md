# TopAmbiental client-document portal, modelled in Dafny

The portal is a Django application in which staff administrators keep a register of client companies (`Cliente`: company name, tax id `cnpj`, password hash `senha`) and upload documents for them (`Documento`: owner, title, file, upload time). Clients sign in with their tax id and password and see their own documents, newest first. Administrators sign in with their email address, manage clients, documents and other administrator accounts, and cannot delete their own account.

The model treats the application as a state machine over an in-memory store:

- `Models` holds the records of `gestao/models.py` and the schema constraints as invariants: unique `cnpj`, the foreign key from every document to an existing client with cascading delete, the column length bounds, and the upload time that is written once. It also holds the password hash, which is left uninterpreted. `ClienteStr` and `DocumentoStr` are the two `__str__` methods (gestao/models.py:8-9 and 17-18): the company name and the title. `DocumentsOf` is the related set `cliente.documentos`, whose ordered listing `Queries.DocumentsNewestFirstSpec` characterises.
- `Forms` says what each form accepts once its text fields are cleaned (surrounding whitespace stripped, required fields non-empty, column bounds, the unique tax id).
- `Queries` holds the ordered listings the pages show, as functions over the tables, each with a lemma giving its exact contents and its order.
- `Views` holds `class Portal`, whose fields are the three tables, the browser session's `cliente_id` slot, the signed-in staff account and the id counters. Each request handler of `gestao/views.py` is one method. A method returns an `Outcome`: the response (redirect target, page rendered with its data, 404, server error) and the flash message it queues. Its contract states the whole new state for every branch, including the authorization guard.
- `Scenarios` composes handler contracts into whole request sequences: a client sees an uploaded document, a stale session is purged once, a blank password edit keeps the old password, an administrator cannot delete their own account, and client sign-out is idempotent.
- `Text` models Python's `str.strip()` and code-point order. `Sorting` provides a map listing in key order and a verified insertion sort. `Wrappers` provides `Option`.

Four behaviours of the code are easy to miss; the model keeps each of them:

- Admin sign-in shows one message for an unknown email address (`AdminNotFound`) and another for a wrong password or a non-staff account (`AdminCredentialsInvalid`).
- Deleting a client removes its document records. The stored files are not removed, because `on_delete=CASCADE` deletes rows only.
- Administrator sign-out runs the framework's `logout`, which flushes the whole session. So it also ends a client session held on the same browser.
- `client_update` as written erases a client's password hash when the password field is left blank (see Findings). `Portal.ClientUpdate` models the intended behaviour.

## Model

| member | source | states |
|---|---|---|
| Text.StripLeftSpec | gestao/forms.py:10-11 | Cleaning drops exactly the leading whitespace: the result is a suffix of the input. Everything before it is whitespace, and it starts with a non-space. |
| Text.StripRightSpec | gestao/forms.py:10-11 | Cleaning drops exactly the trailing whitespace: the result is a prefix of the input. Everything after it is whitespace, and it ends with a non-space. |
| Text.StripEmptyIffBlank | gestao/forms.py:14-18 | A cleaned field is empty exactly when the submitted value was all whitespace. This is how a blank `senha` is recognised. |
| Text.StripIdempotent | gestao/forms.py:10-11 | A cleaned value has no whitespace at either end, and cleaning it again changes nothing. |
| Text.LexLeTotal | gestao/views.py:102 | Any two names are comparable in the code-point order used by `order_by` on text. |
| Text.LexLeTransitive | gestao/views.py:102 | The code-point order is transitive. |
| Sorting.SortedListingContents | gestao/views.py:102 | Sorting the entries of a table gives each entry exactly once, nothing else, in the requested order. |
| Models.CascadeDeleteSpec | gestao/models.py:12 | Deleting client `c` removes exactly its documents and leaves every other document as it was. Every other client's document set is unchanged, no document is left without an owner, the schema still holds and upload times are kept. |
| Models.AddDocumentKeepsSchema | gestao/models.py:11-15 | Saving a document for an existing client keeps the schema. The client gains exactly that document, and earlier documents keep their upload times. |
| Models.FindByCnpj | gestao/views.py:63 | The lookup by tax id finds the client with that tax id, or reports that none exists. |
| Models.FindByUsername | gestao/views.py:40 | The lookup by username finds the account with that username, or reports that none exists. |
| Forms.ClienteFormKeepsSchema | gestao/forms.py:13-21 | Saving what a valid client form cleaned, as a new client or over the edited one, keeps the length bounds and the unique tax id. |
| Forms.UserFormKeepsUnique | gestao/forms.py:36-40 | Adding the account a valid user form describes keeps usernames unique. |
| Queries.DocumentsNewestFirstSpec | gestao/views.py:229 | The dashboard listing holds exactly that client's documents, each once, with upload times descending. |
| Queries.ClientsByNameSpec | gestao/views.py:102 | The client list has one row per client, holding its name and its number of documents, sorted by company name. |
| Queries.StaffByUsernameSpec | gestao/views.py:182 | The administrator list holds exactly the staff accounts, each once, sorted by username. |
| Views.Authenticate | gestao/views.py:40 | `authenticate` yields the account with that username only when the password verifies and the account is active. Otherwise no such account passes both. |
| Views.AdminAuthenticate | gestao/views.py:38-47 | Admin sign-in finds no account exactly when no account has the email, and fails with a server error exactly when more than one does. With one match, it signs that account in exactly when the password verifies and the account is active and staff. |
| Views.ClientAuthenticate | gestao/views.py:62-70 | Client sign-in yields the client with that tax id when the password verifies. An unknown tax id and a wrong password both yield nothing. |
| Views.BlankSenhaAsWrittenLocksClientOut | gestao/views.py:125-132 | As written, saving an edit with a blank `senha` stores an empty hash, so no password verifies afterwards. |
| Views.SaveUpdate | gestao/views.py:127-132 | An edit stores the cleaned name and tax id. A blank `senha` keeps the stored hash; any other one stores its hash, which the new password verifies against. |
| Views.Portal.Privileged | gestao/views.py:16-18 | `is_admin` holds exactly when the session's account exists, is active (so the request is authenticated) and is staff. |
| Views.Portal.AdminLogin | gestao/views.py:28-50 | A signed-in administrator is redirected. A GET or an invalid form renders the form. A valid POST signs in exactly the account admin sign-in grants; an unknown email, bad credentials and duplicate emails each leave the state unchanged with their own outcome. |
| Views.Portal.ClientLogin | gestao/views.py:52-73 | An existing client session is redirected to the dashboard. On a valid POST, `cliente_id` is set to the matched client and nothing else changes. An unknown tax id or a wrong password changes nothing and shows the same message. |
| Views.Portal.UserLogout | gestao/views.py:75-79 | Signing out ends the staff session and the client session, and changes no table. |
| Views.Portal.ClientLogout | gestao/views.py:81-86 | Client sign-out removes only `cliente_id`. The staff identity and the tables stay as they were. |
| Views.Portal.AdminDashboardView | gestao/views.py:92-97 | An administrator sees the numbers of clients and documents. Anyone else is redirected by the guard. |
| Views.Portal.ClientListView | gestao/views.py:99-103 | An administrator sees every client by name with its document count. Anyone else is redirected by the guard. |
| Views.Portal.ClientCreate | gestao/views.py:105-118 | On a valid POST, exactly one client is added under a fresh id, storing the hash of the submitted password and never the password. Nothing else changes. The guard, a GET and an invalid form change nothing. |
| Views.Portal.ClientUpdate | gestao/views.py:120-137 | On a valid POST, only that client changes, to the cleaned name and tax id. A blank `senha` keeps its hash, and any other is replaced by its hash. A missing client gives 404. The guard, a GET and an invalid form change nothing. |
| Views.Portal.ClientDelete | gestao/views.py:139-148 | A POST removes the client and, by cascade, exactly its documents. Nothing else changes. A GET renders the confirmation and changes nothing. |
| Views.Portal.ClientDetailView | gestao/views.py:150-165 | A GET or an invalid upload shows the client's documents newest first and changes nothing. A valid upload adds exactly one document for that client, stamped with the current time, and keeps every other upload time. |
| Views.Portal.DeleteDocument | gestao/views.py:167-177 | Both methods redirect to the owning client's page, whose id is read before deletion. A POST removes exactly that document. A GET changes nothing. |
| Views.Portal.UserListView | gestao/views.py:179-183 | An administrator sees exactly the staff accounts by username. Anyone else is redirected by the guard. |
| Views.Portal.UserCreate | gestao/views.py:185-200 | On a valid POST, the new account is always staff, superuser and active, with the hash of the submitted password. Nothing else changes. |
| Views.Portal.UserDelete | gestao/views.py:202-214 | Deleting one's own account is rejected by GET and by POST, with no change. Otherwise only a POST deletes, and it deletes exactly that account. |
| Views.Portal.ClientDashboardView | gestao/views.py:220-235 | No session id redirects and changes nothing. A valid id shows exactly that client's documents, newest first. A stale id is removed from the session. |
| Scenarios.UploadReachesClientDashboard | gestao/views.py:150-165 | A signed-in client first sees no documents. After the administrator uploads one, the dashboard lists exactly that document. |
| Scenarios.StaleSessionPurgedOnce | gestao/views.py:220-235 | After the signed-in client is deleted, the next dashboard visit reports an invalid session. The visit after it finds no session at all. |
| Scenarios.BlankSenhaKeepsPassword | gestao/views.py:127-132 | After an edit with a blank password, the client still signs in with the old one. |
| Scenarios.AdminCannotDeleteSelf | gestao/views.py:205-214 | An administrator's own account survives a POST and a GET to delete it. Another administrator's account is deleted. |
| Scenarios.ClientLogoutTwice | gestao/views.py:81-86 | Signing out twice gives the same outcome both times and leaves the administrator signed in. |

## Left out

- Template rendering, the text of flash messages, `FileResponse` and URL routing (`gestao/urls.py`) are not modelled. Outcomes are values, and pages carry only the data their templates receive.
- `landing_page` only renders a page, and `gestao/static/js/main.js` only toggles the sidebar in the browser.
- Password hashing is an uninterpreted function whose results are non-empty and fit 128 characters. Because it is uninterpreted, nothing says that two different passwords hash differently. Nor is it stated that an old password stops verifying once it is changed.
- Email syntax validation (`EmailField`), the username character validator and the null-character validator are not modelled: the model accepts inputs they would reject.
- Email normalisation is not modelled. Saving an account through the auth app's `normalize_email` lowercases the domain part of the stored email, while the model stores the stripped email as submitted.
- Views.Portal.UserCreate: the username is not NFKC-normalised. The framework's user `clean()` replaces the username by its NFKC normal form before the uniqueness check and the save. The model stores, and checks for uniqueness, the stripped username as submitted. With an account `fi` present, the source rejects the ligature `ﬁ` (U+FB01) as taken, but the model accepts it. Forms.UserFormValid has the same gap.
- The file field, including its stored name and its length bound, is an opaque byte string kept in the record. Storage on disk is not modelled, so neither is removing a file, whether by cascade or by `arquivo.delete`.
- The session flush on an identity switch in `login`, and `last_login` updates, are not modelled.
- The constructor provisions one superuser, which stands for `createsuperuser`; no handler of the core creates the first account.
- The current time is a parameter of the upload handler (an integer tick).
- Queries.DocumentsNewestFirstSpec: the order among documents with the same upload time is left unspecified, as the database leaves it. Views.Portal.ClientDetailView and Views.Portal.ClientDashboardView show this listing.
- Queries.ClientsByNameSpec: the order among clients with the same name is left unspecified. Names are compared by code point, which is the default collation of the database.
- Queries.StaffByUsernameSpec: usernames are unique, so the order is total. It is the same code-point order.

## Findings

| source | as written | input that shows it | evidently intended | confidence | as-written member | corrected member |
|---|---|---|---|---|---|---|
| gestao/views.py:125-132 | Validating the bound `ClienteForm` copies every cleaned field into `cliente`, including an empty `senha`. `form.save(commit=False)` then returns that same object, so `updated_cliente.senha = cliente.senha` copies the empty value onto itself and the save stores an empty hash. | Edit an existing client, submitting a name, a tax id and a blank `senha`. | The field's help text says a blank password leaves it unchanged, so the stored hash should stay and the client should still sign in. | not executed | Views.SaveUpdateAsWritten, Views.BlankSenhaAsWrittenLocksClientOut | Views.SaveUpdate (used by Views.Portal.ClientUpdate; see Scenarios.BlankSenhaKeepsPassword) |
