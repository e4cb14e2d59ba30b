# Super-admin user creation and WhatsApp connection panel, in Dafny

This project models two React components of a multi-tenant customer-service
platform, and proves properties of the model.

- **`NovoUsuarioSuperAdminDialog`** (`new_user_dialog.dfy`) is the
  super-administrator's "new user" dialog. It covers:
  - the fixed catalog of twelve permissions;
  - the default permissions of each role (`cargo`), and the role handler
    that replaces the selection with those defaults;
  - the checkbox handler, which appends a permission or filters it out;
  - the expression that disables the "Criar Usuário" button;
  - the submission. A submission signs the user up with the authentication
    service. When that returns a user, it inserts a row into `profiles`.
    The model then classifies the result into a toast, resets the form on
    success and clears the loading flag.
  - The `Dialog` class holds the component's `formData` and `loading`
    state. Its handlers are methods proved against pure functions
    (`PermissoesPorCargo`, `Toggled`, `SubmitResult`).
- **`WhatsAppConnectionsReal`** (`whatsapp_connections.dfy`) is the
  WhatsApp connection panel. It covers:
  - the badge lookups `getStatusColor` and `getStatusText`;
  - the `isConnected` and `isDisconnected` flags;
  - the two handlers that update the panel state (`status`, `qrCode`,
    `verificandoStatus`): the status poll and the QR-code request.
  - The `ConnectionPanel` class holds that state. Its methods are proved
    against `AfterStatusPoll` and `AfterQrRequest`.
- `wrappers.dfy` holds `Option`. `toasts.dfy` holds the toast notification
  value (title, description, destructive variant).

The remote calls are not modelled. What each one answers is a parameter of
the handler:
- the authentication sign-up: an error with its message, no user, or a
  user id;
- the profile insert: ok or error;
- the gateway's status and QR-code calls: a reply, or a thrown error.

Behaviour of the code that the model keeps, and that a reader might not
expect:
- The form starts with no permission ticked, although its role is
  `usuario`. After a successful creation it is reset with the `usuario`
  defaults written out (`ResetAndInitial`).
- Changing the role discards any manual permission edits
  (`Dialog.HandleCargoChange`).
- Checking a permission appends it without a duplicate check
  (`CheckingTwiceDuplicates`). The checkbox UI never does that, because it
  always reports the negation of "is in the list"
  (`CheckboxClickKeepsDistinct`).
- A sign-up error whose message is empty shows the fallback text
  "Erro ao criar usuário".
- The test for `User already registered` can never change the outcome.
  Any message that contains it also contains `already registered`
  (`LongerPhraseSubsumed`).
- The poll clears the QR code only when the gateway answers the exact
  string `CONNECTED`. If a reply has `value` true but no status, or a
  status of `conectado`, the badge shows "Conectado" and an earlier QR code
  stays on screen (`ConnectedDisplayKeepsStaleQr`).
- On mount the status is `desconhecido`. In that state neither the
  "Conectar WhatsApp" button nor the "connected" banner is shown
  (`InitialDisplay`). Only a poll can make the button appear.

Behaviour a reader might expect to be different:
- Status matching is exact and case-sensitive: `connected` and `ERRO` are
  unknown (`LookupsAreCaseSensitive`).
- The permissions are a list, not a set. The checkbox handler stores a
  duplicate if it is called with `checked` true for an id already present
  (`CheckingTwiceDuplicates`); the checkbox never calls it that way.
- `handleSubmit` does not itself refuse an empty company or password. The
  submit button's `disabled` expression refuses both (`SubmitEnabled`,
  proved in `SubmitGate`). The browser's native validation of the
  `required` nome, email and senha inputs also stops an empty password.
  So `Dialog.HandleSubmit` has no precondition.
- The roles are the strings `super_admin`, `admin`, `supervisor`, `agente`
  and `usuario`. Any other string falls back to the `usuario` list.

## Model

| member | source | states |
|---|---|---|
| NovoUsuarioSuperAdminDialog.CatalogIdsAre | src/components/admin/NovoUsuarioSuperAdminDialog.tsx:27-40 | the catalog's ids are the twelve ids, in display order |
| NovoUsuarioSuperAdminDialog.CatalogPositions | src/components/admin/NovoUsuarioSuperAdminDialog.tsx:27-40 | each id stands at exactly one catalog index, and `CatalogPosition` gives that index |
| NovoUsuarioSuperAdminDialog.CatalogComplete | src/components/admin/NovoUsuarioSuperAdminDialog.tsx:27-40 | every permission id is in the catalog exactly once, and the catalog is in catalog order |
| NovoUsuarioSuperAdminDialog.OrderedIsDistinct | src/components/admin/NovoUsuarioSuperAdminDialog.tsx:27-40 | a list that follows catalog order has no id twice |
| NovoUsuarioSuperAdminDialog.RemoveAll | src/components/admin/NovoUsuarioSuperAdminDialog.tsx:67 | filtering out an id drops every occurrence of it and keeps every other id with its multiplicity; an id survives if and only if it was present and differs from the removed id |
| NovoUsuarioSuperAdminDialog.RemoveAllAppend | src/components/admin/NovoUsuarioSuperAdminDialog.tsx:67 | the filter distributes over concatenation, so the kept ids keep their order |
| NovoUsuarioSuperAdminDialog.RemoveAllAbsent | src/components/admin/NovoUsuarioSuperAdminDialog.tsx:67 | filtering out an id that is absent returns the list unchanged |
| NovoUsuarioSuperAdminDialog.RemoveAllDistinct | src/components/admin/NovoUsuarioSuperAdminDialog.tsx:67 | filtering keeps a list free of duplicates |
| NovoUsuarioSuperAdminDialog.DistinctTail | src/components/admin/NovoUsuarioSuperAdminDialog.tsx:67 | the tail of a duplicate-free list is duplicate-free and lacks the head |
| NovoUsuarioSuperAdminDialog.DistinctCons | src/components/admin/NovoUsuarioSuperAdminDialog.tsx:67 | putting a new id in front of a duplicate-free list keeps it duplicate-free |
| NovoUsuarioSuperAdminDialog.IdText | src/components/admin/NovoUsuarioSuperAdminDialog.tsx:28-39 | the string stored for each permission id, as the catalog writes it (no contract of its own; used by `ProfileRowFor`) |
| NovoUsuarioSuperAdminDialog.Ids | src/components/admin/NovoUsuarioSuperAdminDialog.tsx:74 | `.map(p => p.id)`: the result has one id per entry, and the id at each index is that entry's id |
| NovoUsuarioSuperAdminDialog.WithoutId | src/components/admin/NovoUsuarioSuperAdminDialog.tsx:76 | `.filter(p => p.id !== x)` on catalog entries: the entries whose id differs, in order (no contract of its own; see `WithoutIdAppend`, `IdsWithoutId`, `AdminIds`) |
| NovoUsuarioSuperAdminDialog.IdsWithoutId | src/components/admin/NovoUsuarioSuperAdminDialog.tsx:76 | filtering catalog entries by id and then mapping to ids is the same as mapping first and then filtering the ids |
| NovoUsuarioSuperAdminDialog.PermissoesPorCargo | src/components/admin/NovoUsuarioSuperAdminDialog.tsx:71-85 | the role defaults of `getPermissoesPorCargo`; a role's list holds `super_admin` if and only if the role is `super_admin` |
| NovoUsuarioSuperAdminDialog.SuperAdminGetsCatalog | src/components/admin/NovoUsuarioSuperAdminDialog.tsx:73-74 | `super_admin` gets all twelve catalog ids, in catalog order |
| NovoUsuarioSuperAdminDialog.WithoutIdAppend | src/components/admin/NovoUsuarioSuperAdminDialog.tsx:76 | the entry filter keeps a prefix that lacks the removed id unchanged |
| NovoUsuarioSuperAdminDialog.AdminIds | src/components/admin/NovoUsuarioSuperAdminDialog.tsx:76 | filtering `super_admin` out of the catalog and mapping to ids gives the other eleven ids, in catalog order |
| NovoUsuarioSuperAdminDialog.AdminDefaults | src/components/admin/NovoUsuarioSuperAdminDialog.tsx:75-76 | `AdminIds` lifted through `PermissoesPorCargo`: the `admin` role gets exactly the eleven ids other than `super_admin`, in catalog order |
| NovoUsuarioSuperAdminDialog.AdminIsCatalogMinusSuperAdmin | src/components/admin/NovoUsuarioSuperAdminDialog.tsx:75-76 | the `admin` list is the catalog ids with `super_admin` removed |
| NovoUsuarioSuperAdminDialog.AdminGetsCatalogButSuperAdmin | src/components/admin/NovoUsuarioSuperAdminDialog.tsx:75-76 | relates the `admin` list to the catalog: it is the catalog's first eleven ids, so it has eleven ids and none is `super_admin` |
| NovoUsuarioSuperAdminDialog.DefaultsNested | src/components/admin/NovoUsuarioSuperAdminDialog.tsx:71-85 | each role's defaults are contained in the next role's: usuario within agente within supervisor within admin within super_admin |
| NovoUsuarioSuperAdminDialog.AdjacentOrdered | src/components/admin/NovoUsuarioSuperAdminDialog.tsx:77-83 | a list whose neighbours each follow catalog order is wholly in catalog order |
| NovoUsuarioSuperAdminDialog.LiteralListsOrdered | src/components/admin/NovoUsuarioSuperAdminDialog.tsx:77-83 | helper on the literals: the supervisor, agente and usuario lists as written follow catalog order |
| NovoUsuarioSuperAdminDialog.ListedDefaultsOrdered | src/components/admin/NovoUsuarioSuperAdminDialog.tsx:77-83 | `LiteralListsOrdered` lifted through `PermissoesPorCargo`: the defaults of `supervisor`, `agente` and `usuario` follow catalog order |
| NovoUsuarioSuperAdminDialog.DefaultsWellFormed | src/components/admin/NovoUsuarioSuperAdminDialog.tsx:71-85 | for every role string, the defaults are catalog ids only, in catalog order, with no id twice |
| NovoUsuarioSuperAdminDialog.UnknownCargoFallsBack | src/components/admin/NovoUsuarioSuperAdminDialog.tsx:81-83 | any role other than the four named ones gets the `usuario` list: dashboard, atendimento, chat_interno |
| NovoUsuarioSuperAdminDialog.Toggled | src/components/admin/NovoUsuarioSuperAdminDialog.tsx:65-67 | after a checkbox change the id is in the list if and only if it was checked, and every other id is in it exactly when it was before |
| NovoUsuarioSuperAdminDialog.ToggledEffect | src/components/admin/NovoUsuarioSuperAdminDialog.tsx:62-69 | checking appends the id at the end and keeps the old list as a prefix; unchecking removes every copy and keeps the count of every other id |
| NovoUsuarioSuperAdminDialog.ToggleRoundTrip | src/components/admin/NovoUsuarioSuperAdminDialog.tsx:62-69 | checking then unchecking an id leaves the list with that id removed, and leaves it unchanged if the id was absent |
| NovoUsuarioSuperAdminDialog.CheckingTwiceDuplicates | src/components/admin/NovoUsuarioSuperAdminDialog.tsx:65-66 | checking an id that is already present leaves a duplicate |
| NovoUsuarioSuperAdminDialog.CheckboxClickKeepsDistinct | src/components/admin/NovoUsuarioSuperAdminDialog.tsx:320-331 | a click reports the negation of "is in the list", so a duplicate-free selection stays duplicate-free |
| NovoUsuarioSuperAdminDialog.ResetAndInitial | src/components/admin/NovoUsuarioSuperAdminDialog.tsx:162-171 | the reset form is the initial form plus the `usuario` defaults, whereas the initial form has no permission |
| NovoUsuarioSuperAdminDialog.SubmitEnabled | src/components/admin/NovoUsuarioSuperAdminDialog.tsx:339 | the button is enabled only when idle with a non-empty company and password, and always then |
| NovoUsuarioSuperAdminDialog.SubmitGate | src/components/admin/NovoUsuarioSuperAdminDialog.tsx:339 | the gate depends only on loading, company and password: changing the role or the permissions never changes it (its first clause repeats `SubmitEnabled`'s contract as one equivalence) |
| NovoUsuarioSuperAdminDialog.FreshFormsCannotSubmit | src/components/admin/NovoUsuarioSuperAdminDialog.tsx:49-58 | neither the initial nor the reset form can be submitted |
| NovoUsuarioSuperAdminDialog.Includes | src/components/admin/NovoUsuarioSuperAdminDialog.tsx:121 | `includes`: a needle is found only if it is no longer than the message, and always when it is a prefix |
| NovoUsuarioSuperAdminDialog.IncludesAt | src/components/admin/NovoUsuarioSuperAdminDialog.tsx:121 | a string includes any slice of itself |
| NovoUsuarioSuperAdminDialog.IncludesWitness | src/components/admin/NovoUsuarioSuperAdminDialog.tsx:121 | if a string includes another, it occurs at some position |
| NovoUsuarioSuperAdminDialog.LongerPhraseSubsumed | src/components/admin/NovoUsuarioSuperAdminDialog.tsx:121 | every message that includes `User already registered` includes `already registered` |
| NovoUsuarioSuperAdminDialog.ErrorToast | src/components/admin/NovoUsuarioSuperAdminDialog.tsx:173-179 | the catch block's toast is a destructive "Erro" with a non-empty description, which is the thrown message when that is non-empty |
| NovoUsuarioSuperAdminDialog.SubmitResult | src/components/admin/NovoUsuarioSuperAdminDialog.tsx:119-179 | a profile row is sent if and only if sign-up returned a user, keyed by that user's id; the toast is destructive exactly when titled "Erro" |
| NovoUsuarioSuperAdminDialog.SubmitClassification | src/components/admin/NovoUsuarioSuperAdminDialog.tsx:119-179 | duplicate-email, raw provider message, empty-message fallback, no-user and partial-creation cases each yield their own error toast |
| NovoUsuarioSuperAdminDialog.ProfileRowFor | src/components/admin/NovoUsuarioSuperAdminDialog.tsx:136-145 | the row holds the new user's id, the form's nome, email, empresa_id, cargo, setor and status, and the permission ids as strings (no contract of its own; stated by `InsertOnlyAfterSignUp`) |
| NovoUsuarioSuperAdminDialog.InsertOnlyAfterSignUp | src/components/admin/NovoUsuarioSuperAdminDialog.tsx:127-147 | a profile insert is attempted if and only if sign-up returned a user; its row has that user's id, the form's fields, and the permission ids as strings |
| NovoUsuarioSuperAdminDialog.SuccessIffBothSteps | src/components/admin/NovoUsuarioSuperAdminDialog.tsx:149-179 | the non-destructive toast is shown if and only if both the sign-up and the insert succeed; every toast has a non-empty description |
| NovoUsuarioSuperAdminDialog.PartialMessageDistinct | src/components/admin/NovoUsuarioSuperAdminDialog.tsx:152 | the partial-creation message differs from the duplicate-email, no-user and fallback messages |
| NovoUsuarioSuperAdminDialog.Dialog.constructor | src/components/admin/NovoUsuarioSuperAdminDialog.tsx:48-58 | a new dialog holds the initial form, is not loading, and its submit button is disabled |
| NovoUsuarioSuperAdminDialog.Dialog.CanSubmit | src/components/admin/NovoUsuarioSuperAdminDialog.tsx:339 | the dialog's button is enabled only when idle with a company and a password |
| NovoUsuarioSuperAdminDialog.Dialog.HandleCargoChange | src/components/admin/NovoUsuarioSuperAdminDialog.tsx:87-94 | the role is set and the permissions are replaced by its defaults; other fields are unchanged |
| NovoUsuarioSuperAdminDialog.Dialog.HandlePermissaoChange | src/components/admin/NovoUsuarioSuperAdminDialog.tsx:62-69 | only the permission list changes: the id is appended when checked and every copy removed when unchecked |
| NovoUsuarioSuperAdminDialog.Dialog.HandleSubmit | src/components/admin/NovoUsuarioSuperAdminDialog.tsx:96-183 | the row sent and the toast are those of `SubmitResult`; the parent is notified and the form reset if and only if both steps succeed; loading ends false |
| WhatsAppConnectionsReal.GetStatusColor | src/components/whatsapp/WhatsAppConnectionsReal.tsx:123-136 | the badge is gray exactly for `erro` and for the statuses the lookups do not name |
| WhatsAppConnectionsReal.GetStatusText | src/components/whatsapp/WhatsAppConnectionsReal.tsx:138-153 | the badge text is one of Conectado, Aguardando Conexão, Desconectado, Erro and Desconhecido |
| WhatsAppConnectionsReal.IsConnected | src/components/whatsapp/WhatsAppConnectionsReal.tsx:167 | a connected status has the green badge |
| WhatsAppConnectionsReal.IsDisconnected | src/components/whatsapp/WhatsAppConnectionsReal.tsx:168 | a disconnected status has the red badge |
| WhatsAppConnectionsReal.StatusTextCases | src/components/whatsapp/WhatsAppConnectionsReal.tsx:138-153 | each badge text is shown for exactly its status strings, and "Desconhecido" for exactly the statuses not named |
| WhatsAppConnectionsReal.LookupsAreCaseSensitive | src/components/whatsapp/WhatsAppConnectionsReal.tsx:123-168 | other spellings of a known status are unknown to the lookups and to both flags |
| WhatsAppConnectionsReal.PredicatesAgreeWithText | src/components/whatsapp/WhatsAppConnectionsReal.tsx:167-168 | `isConnected` holds exactly when the badge reads Conectado, `isDisconnected` exactly when it reads Desconectado, and never both |
| WhatsAppConnectionsReal.ColorAgreesWithText | src/components/whatsapp/WhatsAppConnectionsReal.tsx:123-136 | green, yellow and red go with Conectado, Aguardando Conexão and Desconectado respectively; gray goes with Erro or Desconhecido |
| WhatsAppConnectionsReal.ErroGrayButNamed | src/components/whatsapp/WhatsAppConnectionsReal.tsx:133-149 | `erro` has the gray default colour but its own text |
| WhatsAppConnectionsReal.AfterStatusPoll | src/components/whatsapp/WhatsAppConnectionsReal.tsx:78-97 | a poll ends with no poll running, and either clears the QR code or keeps the one held |
| WhatsAppConnectionsReal.AfterQrRequest | src/components/whatsapp/WhatsAppConnectionsReal.tsx:51-76 | a QR request keeps the poll flag, and either changes nothing or holds a non-empty QR code and awaits pairing |
| WhatsAppConnectionsReal.QrToast | src/components/whatsapp/WhatsAppConnectionsReal.tsx:51-76 | the QR toast is destructive exactly when titled "Erro", and exactly when no non-empty QR code came back |
| WhatsAppConnectionsReal.PollSetsStatusRegardless | src/components/whatsapp/WhatsAppConnectionsReal.tsx:78-97 | a poll always ends with the flag off, and the status it sets does not depend on the previous state |
| WhatsAppConnectionsReal.PollStatus | src/components/whatsapp/WhatsAppConnectionsReal.tsx:83-93 | a throw sets `erro`; a false `value` sets `desconectado`; a true `value` sets the reported status, or `conectado` when that is absent or empty |
| WhatsAppConnectionsReal.PollClearsQrOnlyOnConnected | src/components/whatsapp/WhatsAppConnectionsReal.tsx:85-87 | the QR code is cleared if and only if the reply is `value` true with status exactly `CONNECTED`; otherwise it is kept |
| WhatsAppConnectionsReal.ConnectedReplyClearsQr | src/components/whatsapp/WhatsAppConnectionsReal.tsx:83-87 | a `CONNECTED` reply shows as connected, with no QR code |
| WhatsAppConnectionsReal.ConnectedDisplayKeepsStaleQr | src/components/whatsapp/WhatsAppConnectionsReal.tsx:83-87 | a connected reply with no status, or with status `conectado`, shows as connected but keeps the earlier QR code |
| WhatsAppConnectionsReal.QrSuccess | src/components/whatsapp/WhatsAppConnectionsReal.tsx:54-60 | a non-empty QR code is stored and the status becomes `aguardando-conexao`, so Conectar goes away; the toast is not destructive |
| WhatsAppConnectionsReal.QrFailureLeavesState | src/components/whatsapp/WhatsAppConnectionsReal.tsx:61-75 | an absent QR code, or a thrown error, leaves the state unchanged and shows a destructive "Erro" toast |
| WhatsAppConnectionsReal.PairThenConnect | src/components/whatsapp/WhatsAppConnectionsReal.tsx:51-97 | obtaining a QR code and then polling `CONNECTED` ends connected, with the QR code gone and no poll running |
| WhatsAppConnectionsReal.InitialDisplay | src/components/whatsapp/WhatsAppConnectionsReal.tsx:38-40 | on mount the badge is gray "Desconhecido", no QR code is held, and neither flag holds, so no Conectar button is shown |
| WhatsAppConnectionsReal.ConnectionPanel.constructor | src/components/whatsapp/WhatsAppConnectionsReal.tsx:38-40 | a new panel starts in the initial state, with no Conectar button |
| WhatsAppConnectionsReal.ConnectionPanel.ConectarOffered | src/components/whatsapp/WhatsAppConnectionsReal.tsx:300 | the Conectar button is offered exactly when the badge reads Desconectado |
| WhatsAppConnectionsReal.ConnectionPanel.HandleVerificarStatus | src/components/whatsapp/WhatsAppConnectionsReal.tsx:78-97 | the new state is the poll transition of the old state on the answer received; Conectar is offered afterwards exactly when the reply is `value` false, or `value` true with a disconnected status |
| WhatsAppConnectionsReal.ConnectionPanel.HandleObterQRCode | src/components/whatsapp/WhatsAppConnectionsReal.tsx:51-76 | the new state is the QR-request transition of the old state, and the toast is the one for that answer; after a returned QR code, Conectar is no longer offered |

## Left out

- Rendering is not modelled: the JSX, icons (`getStatusIcon`), badges,
  alerts and dialogs. Only the values that rendering reads are modelled:
  the button's `disabled` expression, the Conectar condition
  (`ConnectionPanel.ConectarOffered`), and the flags.
- The badge's CSS class strings are not modelled. `getStatusColor` returns
  the enumeration `Green | Yellow | Red | Gray`, one value per class
  string.
- Permission ids are an enumeration, with `IdText` giving the stored
  strings. Every id that reaches the form comes from the catalog (a
  checkbox or a role default), so an arbitrary string id is not modelled.
- The remote services are not modelled: supabase sign-up, the `profiles`
  insert, and the gateway's `obterQRCode` and `verificarStatus` (the
  `useEvolutionApi` hook). Their answers are parameters.
- The metadata bag sent with the sign-up request is not modelled. It holds
  the profile row's attributes other than id and email; the row is
  modelled.
- The browser's native form validation is not modelled: the `required`
  attribute on the nome, email and senha inputs, and the `type="email"`
  check on email. The model's submission runs whatever the form holds.
- A sign-up call or insert call that throws, rather than returning an
  error, is not modelled.
- Concurrency and intermediate states are not modelled: async
  interleaving, the mount-time poll in `useEffect`, and the intermediate
  values of `loading` and `verificandoStatus`. The handlers are modelled
  as single steps that end with the flag off.
- `ConnectionPanel.ConectarOffered` also ignores the hook's `conectando`
  flag, which disables the button while a request runs, because that flag
  belongs to the hook.
- Console logging is not modelled. The toast hook is reduced to the toast
  value each handler returns. `onUsuarioCreated` is reduced to the
  `created` result.
- The plain field setters are not modelled: nome, email, senha, empresa,
  setor and status `onChange`, the show-password toggle, and
  `onOpenChange`. Each only assigns one field.
- `handleDeleteConnection` and `handleInstanceCreated` are left out. They
  reload the page, which has no counterpart in the model.
  `CreateInstanceDialog` is not part of this model.
