# Agola gateway: secret actions and webhook ingestion

This project models two parts of the Agola gateway in Dafny.

**The secret actions** list, create, update and delete the secrets of a project or a project group.
- A write first asks whether the authenticated user owns the variables of the parent.
  - If that lookup fails, the action answers the lookup's error, wrapped with "failed to determine ownership".
  - If the user is not the owner, the action answers `ErrForbidden`.
- Create and update then check the new name. An invalid name gets `ErrBadRequest` with the `InvalidSecretName` detail; there is no separate error code for it.
- Only then does the action call the configstore. It picks the project-group or the project variant of the call from the parent kind.
- The payload holds the request's name, type and data, and nothing else.
- A store error comes back with the store's own classification and the action's message.
- Listing needs no ownership check. It can include the secrets of the parent's ancestors (`tree`) and can remove overridden secrets.

**The webhook handler** receives a delivery from a source-control provider for a project. It works through a chain of lookups:
1. It requires a `projectid`.
2. It fetches the project, the user owning the project's linked account, and that user's linked accounts.
3. It scans the linked accounts for the project's one.
4. It fetches the linked account's remote source and builds a git source client.

It then works out the SSH host-key policy: the remote source's, unless the project asks to skip the check. The git source parses the delivery. A delivery with no data is skipped. Otherwise the handler asks the gateway's run-creation action (`CreateRuns` of its action handler) to create a project run from a request built field by field from the project, the remote source and the parsed data.

Modules:
- `Common`: option, result, collaborator errors, and the API error shapes the gateway answers.
- `ConfigStore`: the configstore as the secret actions see it.
  - Secrets are kept per parent scope, as `map<Scope, seq<Secret>>`.
  - `WellFormed` is the store invariant: unique names per scope, and every secret in its own scope.
  - The class `Client` performs the eight secret calls on that state and records each call.
- `SecretAction`: one pure step function per action (`GetSecretsStep`, `CreateSecretStep`, `UpdateSecretStep`, `DeleteSecretStep`) with the lemmas about them.
  - Each step function gives the answer, the secrets left and the store call made.
  - The class `ActionHandler` performs each action on a `Client`. Each of its methods is proved to agree with the step function.
- `Webhook`: the pure function `HandleWebhook`, its stages and the lemmas about them.
  - `HandleWebhook` gives the outcome of a delivery and, in order, the collaborator calls made.
  - The class `WebhooksHandler` has the method `Do`. `Do` performs the chain step by step, including the linked-account loop and the reassigned skip flag. It is proved to agree with `HandleWebhook`.

## Model

| member | source | states |
|---|---|---|
| SecretAction.ActionHandler.GetSecrets | internal/services/gateway/action/secret.go:37-56 | The answer, the secrets left and the calls recorded by the store client are those of `GetSecretsStep`. The parent kind selects the project-group or the project listing call. |
| SecretAction.ActionHandler.CreateSecret | internal/services/gateway/action/secret.go:74-108 | The answer, the new secrets and the calls recorded are those of `CreateSecretStep` for this user's ownership answer. No store call is recorded when a guard rejects the request. |
| SecretAction.ActionHandler.UpdateSecret | internal/services/gateway/action/secret.go:128-162 | The answer, the new secrets and the calls recorded are those of `UpdateSecretStep` for this user's ownership answer. |
| SecretAction.ActionHandler.DeleteSecret | internal/services/gateway/action/secret.go:164-185 | The answer, the new secrets and the calls recorded are those of `DeleteSecretStep` for this user's ownership answer. |
| SecretAction.OwnershipFailureStopsWrites | internal/services/gateway/action/secret.go:75-78 | When the ownership lookup fails, create, update and delete answer that error wrapped with "failed to determine ownership". The secrets are unchanged and no store call is made. The same holds at lines 129-132 and 165-168. |
| SecretAction.NonOwnerIsForbidden | internal/services/gateway/action/secret.go:79-85 | A non-owner gets `ErrForbidden` from all three writes, whatever the name. The ownership check comes before the name check. The secrets are unchanged and no store call is made. The same holds at lines 133-139 and 169-171. |
| SecretAction.InvalidNameIsBadRequest | internal/services/gateway/action/secret.go:83-85 | An owner giving a name the validator rejects gets `ErrBadRequest` with the `InvalidSecretName` detail on create and on update. The secrets are unchanged and no store call is made. The same holds at lines 137-139. |
| SecretAction.StoreReachedIffGuardsPass | internal/services/gateway/action/secret.go:75-101 | A write reaches the store if and only if the user is the owner and, for create and update, the new name is valid. A write that does not reach the store changes nothing. The same holds at lines 129-155 and 165-180. |
| SecretAction.PayloadIsNameTypeData | internal/services/gateway/action/secret.go:87-91 | The payload sent on create and update is exactly the request's name, type and data. Changing the provider id and path of a request changes nothing the action does. The same holds at lines 141-145. |
| SecretAction.KindSelectsStoreCall | internal/services/gateway/action/secret.go:94-101 | Once the guards pass, ProjectGroup selects the project-group call and Project the project call, always at the parent reference. No other scope's secrets change and no scope appears or vanishes. The same holds at lines 148-155 and 173-180. |
| SecretAction.StoreErrorsCarryContext | internal/services/gateway/action/secret.go:102-104 | A store error on a write is answered as that error, keeping the store's classification, with the message "failed to create/update/delete secret". The secrets are unchanged. The same holds at lines 156-158 and 181-183. |
| SecretAction.WritesKeepWellFormed | internal/services/gateway/action/secret.go:93-101 | Create, update and delete keep each scope's names distinct and each secret in its own scope, on every path. The same holds at lines 147-155 and 173-180. |
| SecretAction.CreateThenList | internal/services/gateway/action/secret.go:74-108 | An owner's create of a valid, fresh name in an existing scope succeeds. A plain listing of that scope then ends with the returned secret, which carries the request's name, type and data, and no other secret there has that name. |
| SecretAction.UpdateRenames | internal/services/gateway/action/secret.go:137-154 | Update finds the secret by `SecretName` but stores the validated new `Name`. On success the scope holds the secret with the request's name, type and data. After a rename the old name is gone from the scope. |
| SecretAction.DeleteRemovesName | internal/services/gateway/action/secret.go:164-185 | An owner's delete always reaches the store, with no name validation, and addresses that kind and reference. On success the name is gone from that scope. On failure nothing changes. |
| SecretAction.GetSecretsAnswersStoreList | internal/services/gateway/action/secret.go:37-56 | Listing makes no ownership check and changes nothing. A store error is answered as that error, with no list. Without overridden-secret removal the answer is the store's list unchanged. With it, the answer is the filtered list. |
| SecretAction.ListedSecretsOfScope | internal/services/gateway/action/secret.go:40-45 | Without overridden-secret removal, listing an existing scope succeeds: a plain listing is exactly that scope's secrets, and a tree listing starts with them. |
| ConfigStore.Client.GetProjectGroupSecrets | internal/services/gateway/action/secret.go:42 | Answers the project group's secrets, followed by its ancestors' secrets when `tree` is set. Answers NotFound for an unknown group. Records the call and changes no secret. |
| ConfigStore.Client.GetProjectSecrets | internal/services/gateway/action/secret.go:44 | As above, for a project. |
| ConfigStore.Client.CreateProjectGroupSecret | internal/services/gateway/action/secret.go:97 | Appends the new secret to the group's secrets. Answers NotFound for an unknown group and AlreadyExists for a taken name. Records the call. |
| ConfigStore.Client.CreateProjectSecret | internal/services/gateway/action/secret.go:100 | As above, for a project. |
| ConfigStore.Client.UpdateProjectGroupSecret | internal/services/gateway/action/secret.go:151 | Replaces the secret called `secretName` in place. Answers NotFound for an unknown group or secret, and AlreadyExists when renaming onto another secret's name. Records the call. |
| ConfigStore.Client.UpdateProjectSecret | internal/services/gateway/action/secret.go:154 | As above, for a project. |
| ConfigStore.Client.DeleteProjectGroupSecret | internal/services/gateway/action/secret.go:176 | Removes the secret called `name`. Answers NotFound for an unknown group or secret. Records the call. |
| ConfigStore.Client.DeleteProjectSecret | internal/services/gateway/action/secret.go:179 | As above, for a project. |
| Webhook.WebhooksHandler.Do | internal/services/gateway/api/webhook.go:57-157 | The outcome of the step-by-step handler is that of `HandleWebhook`, and so are its ordered collaborator calls. This covers the linked-account loop, which is proved against `FindLinkedAccount`, and the reassigned skip flag. |
| Webhook.MissingProjectIdIsBadRequest | internal/services/gateway/api/webhook.go:60-63 | A delivery with no `projectid`, or an empty one, fails with `ErrBadRequest` before any call is made. |
| Webhook.FailedLookupEndsDelivery | internal/services/gateway/api/webhook.go:67-97 | Any configstore lookup (project, user, linked accounts, remote source) that fails is the last call made, and nothing is called after it. The answer is that lookup's error, with that stage's message and the failing id. |
| Webhook.LookupFailureShortCircuits | internal/services/gateway/api/webhook.go:67-97 | The converse: when the answer is a configstore error, the last call is a lookup that failed with that error. Every earlier call succeeded, and neither the parser nor the run-creation action is called. |
| Webhook.FindLinkedAccountIsFirstMatch | internal/services/gateway/api/webhook.go:82-88 | The scan finds nothing if and only if no linked account has the id. Otherwise it finds the first account in the list that has it. |
| Webhook.LinkedAccountIsFirstMatch | internal/services/gateway/api/webhook.go:82-94 | With no linked account matching the project's id, the delivery fails with `ErrInternal` after three calls, before the remote source is fetched. Otherwise the remote source fetched is that of the account the scan finds. |
| Webhook.EffectiveSkipSshHostKeyCheck | internal/services/gateway/api/webhook.go:106-110 | The effective flag is the remote source's flag or the project's flag. A project flag of false never turns off the remote source's true. |
| Webhook.GitSourceFailureIsInternal | internal/services/gateway/api/webhook.go:99-102 | A git source client that cannot be built gives `ErrInternal`, and neither the parser nor the run-creation action is called. |
| Webhook.ParseFailureIsBadRequest | internal/services/gateway/api/webhook.go:112-115 | A delivery the parser rejects gives `ErrBadRequest`, and no run is created. |
| Webhook.NilWebhookIsSkipped | internal/services/gateway/api/webhook.go:116-121 | A delivery the parser answers with no data succeeds as skipped, and the run-creation action is never called. |
| Webhook.RunRequestFromWebhookData | internal/services/gateway/api/webhook.go:123-156 | The run request is fixed by the inputs, as listed after this table. The run-creation action's answer decides between `ErrInternal` and success. |
| Webhook.RunCreatedOnlyWhenAccepted | internal/services/gateway/api/webhook.go:152-156 | A run is reported created only when the run-creation action accepted the request. That request is the last call and the only run creation. |

The run request built by `Webhook.RunRequestFromWebhookData` and sent as the last call is:
- a project run, triggered by a webhook, with no user;
- the ref type the event table gives;
- the project's SSH key and the remote source's host key;
- the effective skip flag;
- the SSH URL as the clone URL;
- every commit, branch, tag, pull request, ref and link field copied from the parsed data.

## Left out

- HTTP plumbing is not modelled: `ServeHTTP`, the error-to-response writing, `NewWebhooksHandler` and closing the request body.
  - The `projectid` query parameter is an optional string input.
  - The raw delivery is opaque content that only the parser reads.
- Logging is not modelled.
- The store-assigned fields of a secret (its ID) are not modelled; create and update return the store's secret unchanged.
- `context.Context` and cancellation are not modelled, since there is no concurrency here.
- The configstore is not part of this model.
  - The configstore's secret calls are modelled on a map of per-scope lists.
  - The NotFound and AlreadyExists cases, insertion at the end, in-place replacement and ancestor listing are assumptions about the configstore.
  - The webhook's configstore lookups are given functions.
- Several collaborators are not part of this model. Each is a given function with no property assumed:
  - the ownership lookup (`IsAuthUserVariableOwner`);
  - `ValidateName`;
  - `FilterOverriddenSecrets`;
  - `WebHookEventToRunRefType`;
  - `GetGitSource`;
  - the git source's `ParseWebhook`;
  - the gateway action `ActionHandler.CreateRuns`, which the webhook handler calls to create the run. Its failure can arise inside the gateway as well as in the runservice.
- `APIErrorFromRemoteError` is not part of this model.
  - A remote error is kept as the collaborator classified it (`RemoteApiError`), together with the message passed.
  - The mapping from remote error to HTTP status is not modelled.
- Error messages are kept as a format string and its arguments; formatting is not modelled.
- A parent kind other than project group or project is ruled out by the two-constructor `ObjectKind`. In the source such a kind falls through the switch of each action with no error:
  - `GetSecrets` answers an empty list;
  - `CreateSecret` and `UpdateSecret` would dereference a nil secret;
  - `DeleteSecret` answers success and deletes nothing.
- The source answers success both for a skipped delivery and for a created run. The model tells the two apart (`Skipped`, `RunCreated`) so that the run-creation call can be stated.
- The collaborator call trace of the webhook handler is ghost state. It records what was called; it is not a program output.
