# Agent configuration and user accounts — a Dafny model

This project models the two pieces of logic that carry the behaviour of a small web
application:

- **The agent configuration page** (`frontend/src/pages/Agent.jsx`). It offers a cascading
  selection provider → model → language over a speech-to-text catalog. It reacts to every
  change with three rules. The provider rule refills the model list and clears model and
  language when the model is not offered by the provider. The model rule refills the
  language list and clears the language when the model does not offer it. The save rule
  writes the triple to the browser's `agentConfig` storage slot when all three are set.
- **The user handlers** (`backend/controllers/userController.js` over the record of
  `backend/models/User.js`). `signup`, `login` and `updateProfile` work on a collection of
  user records whose email is unique. Each answers with a status code and a JSON body.

## Layout

| file | module | models |
|---|---|---|
| `lookup.dfy` | `Lookup` | `Option`, and the first-match search behind `find`, `some` and `findOne` |
| `agent.dfy` | `AgentConfig` | the catalog entries, the three rules as functions on a `Selection`, the page as class `AgentPage` |
| `user_schema.dfy` | `UserSchema` | the `User` record, the unique email index as `UniqueEmails` and `EmailTaken` |
| `user_controller.dfy` | `UserController` | responses, store faults, the handlers as methods of class `UserCollection` |

The page is a class whose fields are its nine state variables plus the storage slot. Each
event (restore, catalog arrival, a select's change, the save button) is a method. Each rule is
a method that updates the fields in place, and its `ensures` ties the new state to a pure
function of the old state (`ProviderRule`, `ModelRule`, `SaveRule`). The lemmas are stated
about those functions.

React runs every effect of one commit against the values of the same render.
`AgentPage.Commit` runs the save rule, then the model rule, then the provider rule. No rule
in that order reads a value that an earlier one writes, so the sequence gives the same result
as the commit. This is why the save rule sees the provider just chosen together with the old
model and language. `StaleTripleIsSaved` proves that the stored triple can then name a model
that the stored provider does not offer, and `SampleCatalogHasStaleSwitch` shows such a switch
in the sample catalog. The model therefore never claims that the stored triple agrees with the
catalog.

The user collection is a class holding a `seq<User>`. Its invariant `Valid()` is the unique
email index. A record's fields are `Option<string>`: no field is required, and a field the
record lacks is `None`. The unique index treats a missing email as one more value, so at
most one record may lack an email. Request fields are strings. A failure of the store is an
input, `StoreFault`: either the find fails or the save fails. Any failure answers
`500 "Server error"` and leaves the collection unchanged. This includes a save rejected
because the new email already belongs to another record.

### Behaviour of the code worth noting

- Passwords are stored and compared as given. `login` returns no token. `updateProfile`
  authenticates by email and current password, not by a session token.
- The save rule tests only that the three selections are non-empty. It does not check that
  they form a valid triple (`StaleTripleIsSaved`).
- A restored provider that the catalog does not contain is never checked. Two commits leave
  the whole restored selection in place (`RestoredSelectionRevalidated`).
- Catalog entries are read through `value`, `name`, `models` and `languages`, and each
  language is an object with a `value`. This is what the page reads. The constant catalog in
  `backend/controllers/sttController.js` uses `id` and plain-string languages instead.
- `signup` requires no field. A missing phone or email is not an error in the code.

## Model

| member | source | states |
|---|---|---|
| `Lookup.FindFirst` | frontend/src/pages/Agent.jsx:46-49 | the index returned holds the key and every earlier element does not; None exactly when no element holds the key |
| `AgentConfig.FindProvider` | frontend/src/pages/Agent.jsx:46 | a found provider is the first catalog entry with the given value; None exactly when no provider has that value |
| `AgentConfig.FindModel` | frontend/src/pages/Agent.jsx:61 | a found model is the first list entry with the given value; None exactly when no model has that value |
| `AgentConfig.ProviderRule` | frontend/src/pages/Agent.jsx:44-56 | with a non-empty provider found in a loaded catalog, `models` becomes its list and model and language are both cleared exactly when the model is not among them; with an empty provider, no catalog or an unknown provider nothing changes; the provider and `languages` are never touched |
| `AgentConfig.ModelRule` | frontend/src/pages/Agent.jsx:59-68 | with a non-empty model found in `models`, `languages` becomes its list and the language is cleared exactly when not among them; otherwise nothing changes; provider, model and `models` are never touched |
| `AgentConfig.SaveRule` | frontend/src/pages/Agent.jsx:71-82 | a complete triple is stored exactly as selected; a partial triple leaves the stored slot as it was, never clearing it |
| `AgentConfig.SlotHoldsLastCompleteTriple` | frontend/src/pages/Agent.jsx:71-82 | over any run of commits the storage slot holds the triple of the last complete render, or its earlier contents when no render was complete; a partial triple never overwrites or clears it |
| `AgentConfig.ProviderRuleIdempotent` | frontend/src/pages/Agent.jsx:44-56 | applying the provider rule twice gives the state of applying it once |
| `AgentConfig.ModelRuleIdempotent` | frontend/src/pages/Agent.jsx:59-68 | applying the model rule twice gives the state of applying it once |
| `AgentConfig.SettledSelection` | frontend/src/pages/Agent.jsx:44-68 | after the provider rule with a found provider and the model rule with a found model, the model belongs to the provider, the language is unset or belongs to the model, a set language gives a consistent triple, and both rules are then no-ops |
| `AgentConfig.RestoredSelectionRevalidated` | frontend/src/pages/Agent.jsx:16-68 | a complete triple restored before the catalog arrives is, after two commits, kept with a model of its provider and a language of its model or cleared, and kept whole when it is consistent; a restored provider unknown to the catalog leaves the selection unchanged |
| `AgentConfig.StaleTripleIsSaved` | frontend/src/pages/Agent.jsx:44-82 | switching a complete, consistent selection to a provider that lacks its model stores the new provider with the stale model and language, a triple the catalog does not support, while the selection itself is cleared |
| `AgentConfig.SampleCatalogHasStaleSwitch` | backend/controllers/sttController.js:2-19 | in the sample catalog openai/gpt4/Spanish is consistent and anthropic does not offer gpt4, so the stale save above happens there |
| `AgentConfig.FetchErrorMessage` | frontend/src/pages/Agent.jsx:32-36 | a non-ok response shows its `error` text or "Failed to load config" when it has none; a thrown error shows its own message |
| `AgentConfig.AgentPage.constructor` | frontend/src/pages/Agent.jsx:5-13 | the page mounts with no catalog, empty selections and lists, loading, no error, no toast, over the storage slot as it is |
| `AgentConfig.AgentPage.Restore` | frontend/src/pages/Agent.jsx:16-24 | with a saved triple all three selections are set from it; without one they are left as they were |
| `AgentConfig.AgentPage.LoadCatalog` | frontend/src/pages/Agent.jsx:27-41 | loading ends; success sets the catalog; failure sets the error message and leaves no catalog |
| `AgentConfig.AgentPage.SelectProvider` | frontend/src/pages/Agent.jsx:110-121 | once the catalog has loaded without error, choosing "" or a provider of the catalog sets the provider and nothing else |
| `AgentConfig.AgentPage.SelectModel` | frontend/src/pages/Agent.jsx:127-143 | once the catalog has loaded without error and only while a provider is set, choosing "" or a listed model sets the model and nothing else |
| `AgentConfig.AgentPage.SelectLanguage` | frontend/src/pages/Agent.jsx:149-165 | once the catalog has loaded without error and only while a model is set, choosing "" or a listed language sets the language and nothing else |
| `AgentConfig.AgentPage.ApplyProviderRule` | frontend/src/pages/Agent.jsx:44-56 | the page's state afterwards is `ProviderRule` of its state before; only `models`, model and language may change |
| `AgentConfig.AgentPage.ApplyModelRule` | frontend/src/pages/Agent.jsx:59-68 | the page's state afterwards is `ModelRule` of its state before; only `languages` and language may change |
| `AgentConfig.AgentPage.ApplySaveRule` | frontend/src/pages/Agent.jsx:71-82 | the storage slot afterwards is `SaveRule` of the slot before and the current selection; nothing else changes |
| `AgentConfig.AgentPage.Commit` | frontend/src/pages/Agent.jsx:44-82 | one commit: the selection becomes the provider rule applied after the model rule, and the storage slot is the save rule applied to the selection before the commit |
| `AgentConfig.AgentPage.SaveEnabled` | frontend/src/pages/Agent.jsx:201-211 | the button is enabled exactly when provider, model and language are all set, which is when the save rule writes the current triple; otherwise the rule leaves the slot as it is |
| `AgentConfig.AgentPage.HandleSave` | frontend/src/pages/Agent.jsx:84-98 | a press on the button, which is on screen after a clean load and enabled (Agent.jsx:203) for a complete selection, only shows the success toast; the storage slot and the selection are untouched |
| `AgentConfig.TopDownSelectionIsSaved` | frontend/src/pages/Agent.jsx:44-82 | choosing a provider, one of its models and one of that model's languages, with a commit after each, offers each next value in its select, ends settled and stores exactly that triple |
| `UserSchema.InsertCheck` | backend/models/User.js:5 | an insert keeps emails unique exactly when no existing record has the new record's email |
| `UserSchema.SaveCheck` | backend/models/User.js:5 | saving a record keeps emails unique exactly when no other record has its email |
| `UserSchema.UsernameAndPhoneMayRepeat` | backend/models/User.js:3-8 | two records sharing username and phone but not email satisfy the only unique constraint |
| `UserController.LoginMatches` | backend/controllers/userController.js:20 | the query finds a record exactly when some record has both the given email and the given password |
| `UserController.AuthenticatesIffLoginMatches` | backend/controllers/userController.js:38-42 | with unique emails, finding by email then comparing passwords accepts exactly the pairs that login accepts |
| `UserController.ApplyProfileChanges` | backend/controllers/userController.js:44-45 | a non-empty new email or new password replaces the stored one, an empty one leaves it; username and phone are kept |
| `UserController.PasswordChangeRoundTrip` | backend/controllers/userController.js:44-46 | after an accepted update to a different non-empty password, login with the effective email accepts the new password and rejects the old, and emails stay unique |
| `UserController.UserCollection.Signup` | backend/controllers/userController.js:3-15 | a taken email answers 400 "Email already exists" with no change; a free email adds exactly one record with the fields as given and answers 201; a store failure answers 500 with no change |
| `UserController.UserCollection.Login` | backend/controllers/userController.js:17-33 | succeeds with 200 exactly when a record has both the email and the password, answering that record's username, email and phone only; otherwise 401 "Invalid credentials"; a store failure answers 500; the collection is never changed |
| `UserController.UserCollection.UpdateProfile` | backend/controllers/userController.js:35-52 | an unknown email or a wrong password both answer 401 "Invalid credentials" with no change; otherwise the record is replaced by its changed copy and 200 is answered, unless the save fails or the new email belongs to another record, which answers 500 with no change; emails stay unique |
| `UserController.SignupTwice` | backend/controllers/userController.js:6-11 | two signups with the same free email: the first answers 201, the second 400, and exactly one record holds the email |

## Left out

- Password hashing, signed session tokens and cookies: the modelled code has none of them.
  Passwords are compared as plain strings and login answers no token.
- React's dependency tracking. React re-runs an effect only when one of its dependencies
  changed. `AgentPage.Commit` runs every rule. The rules are idempotent, so this differs
  only where a rule would act on a value changed since it last ran without its dependencies
  changing (for example, a language picked while the model is empty, which the disabled
  select prevents).
- Asynchronous interleaving. The catalog request resolves once, as one event
  (`LoadCatalog`), between commits. A response arriving while effects are pending is not
  modelled.
- The concurrent check-then-insert race in `signup`. Requests run one at a time. On insert,
  the unique index never fires after the find has found the email free.
- Rendering: the spinner, the error panel, the summary panel, the option lists' markup, and
  the toast's display and timer. What the rendering decides about events is kept as
  preconditions: the selects and the button exist only after a load that ended without
  error, and the button is pressed only while enabled.
- JSON encoding of the storage slot and a malformed stored value. The slot holds either
  nothing or a triple of strings.
- A request body that omits a key or sends a non-string value. How the store matches
  an undefined filter value depends on the driver. Every request field is a string here.
- A catalog response without the `stt` member. The page would then fail on
  `providers.find`.
- Server bootstrapping, route wiring, the file-based catalog route, and the constant
  catalog controller. The constant catalog is used only as the sample catalog in
  `SampleCatalogHasStaleSwitch`, with `id` read as `value`.
- The other pages (login form, profile form, dashboard, landing page) and the toast
  component: form handling and setting or removing two storage keys.
- Store-generated fields (`_id`, the version key) and type casting by the schema.
