/** The gateway's secret actions: listing the secrets of a project or project
    group, and creating, updating and deleting one of them behind an
    ownership check and a name check. Each action is given twice: as a step
    function over the store's secrets (what the action answers, the secrets
    it leaves, the store call it makes), about which the lemmas below are
    proved, and as a method of `ActionHandler` that performs it against the
    store client and is proved to agree with the step function. */
module SecretAction {
  import opened Common
  import opened ConfigStore

  datatype GetSecretsRequest = GetSecretsRequest(
    parentType: ObjectKind, parentRef: string,
    tree: bool, removeOverridden: bool)

  datatype CreateSecretRequest = CreateSecretRequest(
    name: string,
    parentType: ObjectKind, parentRef: string,
    secretType: SecretType,
    data: map<string, string>,                  // internal secret
    secretProviderId: string, path: string)     // external secret

  datatype UpdateSecretRequest = UpdateSecretRequest(
    secretName: string,
    name: string,
    parentType: ObjectKind, parentRef: string,
    secretType: SecretType,
    data: map<string, string>,                  // internal secret
    secretProviderId: string, path: string)     // external secret

  /** What an action answers, the secrets it leaves and the store call it
      makes (None when it stops before reaching the store). */
  datatype Step<+T> = Step(result: Result<T, Error>, secrets: Secrets, call: Option<StoreCall>)

  function CallsOf(c: Option<StoreCall>): seq<StoreCall> {
    if c.Some? then [c.value] else []
  }

  const OwnershipContext := "failed to determine ownership"

  /** The messages attached to a store error on each write. */
  const CreateFailed := Msg("failed to create secret", [])
  const UpdateFailed := Msg("failed to update secret", [])
  const DeleteFailed := Msg("failed to delete secret", [])

  const NotAuthorized := ApiError(ErrForbidden, Msg("user not authorized", []), NoDetail)

  function InvalidName(name: string): Error {
    ApiError(ErrBadRequest, Msg("invalid secret name %q", [name]), InvalidSecretName)
  }

  /** The check every write makes before it reaches the store: the ownership
      answer first, then, for create and update, the new name. None lets the
      write through. */
  function WriteGuard(owner: Result<bool, Cause>, name: Option<string>, validateName: string -> bool): Option<Error> {
    if owner.Failure? then Some(Wrapped(owner.error, OwnershipContext))
    else if !owner.value then Some(NotAuthorized)
    else if name.Some? && !validateName(name.value) then Some(InvalidName(name.value))
    else None
  }

  /** A store answer as the action returns it. */
  function FromStore<T>(r: Result<T, Cause>, context: Option<Msg>): Result<T, Error> {
    match r
    case Success(v) => Success(v)
    case Failure(e) => Failure(RemoteApiError(e, context))
  }

  function CreatePayload(req: CreateSecretRequest): SecretPayload {
    SecretPayload(req.name, req.secretType, req.data)
  }

  function UpdatePayload(req: UpdateSecretRequest): SecretPayload {
    SecretPayload(req.name, req.secretType, req.data)
  }

  function GetCall(kind: ObjectKind, ref: string, tree: bool): StoreCall {
    match kind
    case ProjectGroup => StoreCall.GetProjectGroupSecrets(ref, tree)
    case Project => StoreCall.GetProjectSecrets(ref, tree)
  }

  function CreateCall(kind: ObjectKind, ref: string, p: SecretPayload): StoreCall {
    match kind
    case ProjectGroup => StoreCall.CreateProjectGroupSecret(ref, p)
    case Project => StoreCall.CreateProjectSecret(ref, p)
  }

  function UpdateCall(kind: ObjectKind, ref: string, secretName: string, p: SecretPayload): StoreCall {
    match kind
    case ProjectGroup => StoreCall.UpdateProjectGroupSecret(ref, secretName, p)
    case Project => StoreCall.UpdateProjectSecret(ref, secretName, p)
  }

  function DeleteCall(kind: ObjectKind, ref: string, name: string): StoreCall {
    match kind
    case ProjectGroup => StoreCall.DeleteProjectGroupSecret(ref, name)
    case Project => StoreCall.DeleteProjectSecret(ref, name)
  }

  function GetSecretsStep(st: Secrets, ancestors: Scope -> seq<Scope>, filter: seq<Secret> -> seq<Secret>,
                          req: GetSecretsRequest): Step<seq<Secret>>
  {
    var listed := List(st, ancestors, Scope(req.parentType, req.parentRef), req.tree);
    var result := match listed
      case Failure(e) => Failure(RemoteApiError(e, None))
      case Success(l) => Success(if req.removeOverridden then filter(l) else l);
    Step(result, st, Some(GetCall(req.parentType, req.parentRef, req.tree)))
  }

  function CreateSecretStep(st: Secrets, owner: Result<bool, Cause>, validateName: string -> bool,
                            req: CreateSecretRequest): Step<Secret>
  {
    match WriteGuard(owner, Some(req.name), validateName)
    case Some(e) => Step(Failure(e), st, None)
    case None =>
      var p := CreatePayload(req);
      var s := Create(st, Scope(req.parentType, req.parentRef), p);
      Step(FromStore(s.result, Some(CreateFailed)), s.secrets,
           Some(CreateCall(req.parentType, req.parentRef, p)))
  }

  function UpdateSecretStep(st: Secrets, owner: Result<bool, Cause>, validateName: string -> bool,
                            req: UpdateSecretRequest): Step<Secret>
  {
    match WriteGuard(owner, Some(req.name), validateName)
    case Some(e) => Step(Failure(e), st, None)
    case None =>
      var p := UpdatePayload(req);
      var s := Update(st, Scope(req.parentType, req.parentRef), req.secretName, p);
      Step(FromStore(s.result, Some(UpdateFailed)), s.secrets,
           Some(UpdateCall(req.parentType, req.parentRef, req.secretName, p)))
  }

  function DeleteSecretStep(st: Secrets, owner: Result<bool, Cause>,
                            parentType: ObjectKind, parentRef: string, name: string): Step<()>
  {
    match WriteGuard(owner, None, _ => true)
    case Some(e) => Step(Failure(e), st, None)
    case None =>
      var s := Delete(st, Scope(parentType, parentRef), name);
      Step(FromStore(s.result, Some(DeleteFailed)), s.secrets,
           Some(DeleteCall(parentType, parentRef, name)))
  }

  /** Only the addressed scope may change, and no scope appears or vanishes. */
  ghost predicate OnlyScopeChanged(st: Secrets, st': Secrets, scope: Scope) {
    st'.Keys == st.Keys && forall s | s in st && s != scope :: st'[s] == st[s]
  }

  // ---------------------------------------------------------------------
  // Guards

  /** An ownership lookup that fails ends every write with that error,
      wrapped, before any store call. */
  lemma OwnershipFailureStopsWrites(st: Secrets, cause: Cause, validateName: string -> bool,
                                    creq: CreateSecretRequest, ureq: UpdateSecretRequest,
                                    kind: ObjectKind, ref: string, name: string)
    ensures CreateSecretStep(st, Failure(cause), validateName, creq) == Step(Failure(Wrapped(cause, OwnershipContext)), st, None)
    ensures UpdateSecretStep(st, Failure(cause), validateName, ureq) == Step(Failure(Wrapped(cause, OwnershipContext)), st, None)
    ensures DeleteSecretStep(st, Failure(cause), kind, ref, name) == Step(Failure(Wrapped(cause, OwnershipContext)), st, None)
  {
  }

  /** A caller who is not the variable owner is refused with ErrForbidden,
      whatever the name, before any store call: the ownership check comes
      before the name check. */
  lemma NonOwnerIsForbidden(st: Secrets, validateName: string -> bool,
                            creq: CreateSecretRequest, ureq: UpdateSecretRequest,
                            kind: ObjectKind, ref: string, name: string)
    ensures var r := CreateSecretStep(st, Success(false), validateName, creq);
      r.result.Failure? && r.result.error.HasCode(ErrForbidden) && r.secrets == st && r.call == None
    ensures var r := UpdateSecretStep(st, Success(false), validateName, ureq);
      r.result.Failure? && r.result.error.HasCode(ErrForbidden) && r.secrets == st && r.call == None
    ensures var r := DeleteSecretStep(st, Success(false), kind, ref, name);
      r.result.Failure? && r.result.error.HasCode(ErrForbidden) && r.secrets == st && r.call == None
  {
  }

  /** An owner who gives an invalid new name gets ErrBadRequest carrying the
      InvalidSecretName detail, before any store call. */
  lemma InvalidNameIsBadRequest(st: Secrets, validateName: string -> bool,
                                creq: CreateSecretRequest, ureq: UpdateSecretRequest)
    ensures !validateName(creq.name) ==>
      var r := CreateSecretStep(st, Success(true), validateName, creq);
      r.result.Failure? && r.result.error.HasCode(ErrBadRequest) && r.result.error.detail == InvalidSecretName
      && r.secrets == st && r.call == None
    ensures !validateName(ureq.name) ==>
      var r := UpdateSecretStep(st, Success(true), validateName, ureq);
      r.result.Failure? && r.result.error.HasCode(ErrBadRequest) && r.result.error.detail == InvalidSecretName
      && r.secrets == st && r.call == None
  {
  }

  /** A write reaches the store exactly when the caller is the owner and, for
      create and update, the new name is valid; a write that does not reach
      the store leaves every secret as it was. */
  lemma StoreReachedIffGuardsPass(st: Secrets, owner: Result<bool, Cause>, validateName: string -> bool,
                                  creq: CreateSecretRequest, ureq: UpdateSecretRequest,
                                  kind: ObjectKind, ref: string, name: string)
    ensures var r := CreateSecretStep(st, owner, validateName, creq);
      (r.call.Some? <==> owner == Success(true) && validateName(creq.name)) && (r.call.None? ==> r.secrets == st)
    ensures var r := UpdateSecretStep(st, owner, validateName, ureq);
      (r.call.Some? <==> owner == Success(true) && validateName(ureq.name)) && (r.call.None? ==> r.secrets == st)
    ensures var r := DeleteSecretStep(st, owner, kind, ref, name);
      (r.call.Some? <==> owner == Success(true)) && (r.call.None? ==> r.secrets == st)
  {
  }

  // ---------------------------------------------------------------------
  // What reaches the store

  /** The payload sent on create and update is the request's name, type and
      data; the external-secret fields never reach the store, so two requests
      that differ only in them do the same thing. */
  lemma PayloadIsNameTypeData(st: Secrets, owner: Result<bool, Cause>, validateName: string -> bool,
                              creq: CreateSecretRequest, ureq: UpdateSecretRequest,
                              providerId: string, path: string)
    ensures var r := CreateSecretStep(st, owner, validateName, creq);
      r.call.Some? ==> r.call.value.payload == SecretPayload(creq.name, creq.secretType, creq.data)
    ensures var r := UpdateSecretStep(st, owner, validateName, ureq);
      r.call.Some? ==> r.call.value.payload == SecretPayload(ureq.name, ureq.secretType, ureq.data)
    ensures CreateSecretStep(st, owner, validateName, creq.(secretProviderId := providerId, path := path))
         == CreateSecretStep(st, owner, validateName, creq)
    ensures UpdateSecretStep(st, owner, validateName, ureq.(secretProviderId := providerId, path := path))
         == UpdateSecretStep(st, owner, validateName, ureq)
  {
  }

  /** Once the guards pass, the parent kind picks the project-group or the
      project variant of the store call, addressed at the parent reference,
      and no other scope's secrets change. */
  lemma KindSelectsStoreCall(st: Secrets, validateName: string -> bool,
                             creq: CreateSecretRequest, ureq: UpdateSecretRequest,
                             kind: ObjectKind, ref: string, name: string)
    ensures validateName(creq.name) ==>
      var r := CreateSecretStep(st, Success(true), validateName, creq);
      && r.call == Some(if creq.parentType == ProjectGroup
                        then StoreCall.CreateProjectGroupSecret(creq.parentRef, CreatePayload(creq))
                        else StoreCall.CreateProjectSecret(creq.parentRef, CreatePayload(creq)))
      && OnlyScopeChanged(st, r.secrets, Scope(creq.parentType, creq.parentRef))
    ensures validateName(ureq.name) ==>
      var r := UpdateSecretStep(st, Success(true), validateName, ureq);
      && r.call == Some(if ureq.parentType == ProjectGroup
                        then StoreCall.UpdateProjectGroupSecret(ureq.parentRef, ureq.secretName, UpdatePayload(ureq))
                        else StoreCall.UpdateProjectSecret(ureq.parentRef, ureq.secretName, UpdatePayload(ureq)))
      && OnlyScopeChanged(st, r.secrets, Scope(ureq.parentType, ureq.parentRef))
    ensures
      var r := DeleteSecretStep(st, Success(true), kind, ref, name);
      && r.call == Some(if kind == ProjectGroup
                        then StoreCall.DeleteProjectGroupSecret(ref, name)
                        else StoreCall.DeleteProjectSecret(ref, name))
      && OnlyScopeChanged(st, r.secrets, Scope(kind, ref))
  {
  }

  // ---------------------------------------------------------------------
  // Effects on a well-formed store

  /** Every write keeps names unique within each scope and every secret in
      the scope that owns it. */
  lemma WritesKeepWellFormed(st: Secrets, owner: Result<bool, Cause>, validateName: string -> bool,
                             creq: CreateSecretRequest, ureq: UpdateSecretRequest,
                             kind: ObjectKind, ref: string, name: string)
    requires WellFormed(st)
    ensures WellFormed(CreateSecretStep(st, owner, validateName, creq).secrets)
    ensures WellFormed(UpdateSecretStep(st, owner, validateName, ureq).secrets)
    ensures WellFormed(DeleteSecretStep(st, owner, kind, ref, name).secrets)
  {
    CreateKeepsWellFormed(st, Scope(creq.parentType, creq.parentRef), CreatePayload(creq));
    UpdateKeepsWellFormed(st, Scope(ureq.parentType, ureq.parentRef), ureq.secretName, UpdatePayload(ureq));
    DeleteKeepsWellFormed(st, Scope(kind, ref), name);
  }

  /** A created secret is found by a plain listing of its scope: it is the
      one secret there with its name, and it carries the request's type and
      data. */
  lemma CreateThenList(st: Secrets, validateName: string -> bool, ancestors: Scope -> seq<Scope>,
                       filter: seq<Secret> -> seq<Secret>, req: CreateSecretRequest)
    requires WellFormed(st)
    requires validateName(req.name)
    requires Scope(req.parentType, req.parentRef) in st
    requires !HasName(st[Scope(req.parentType, req.parentRef)], req.name)
    ensures var c := CreateSecretStep(st, Success(true), validateName, req);
      var g := GetSecretsStep(c.secrets, ancestors, filter, GetSecretsRequest(req.parentType, req.parentRef, false, false));
      && c.result.Success? && g.result.Success?
      && var l := g.result.value;
      && |l| > 0 && l[|l| - 1] == c.result.value
      && c.result.value == Secret(req.name, req.secretType, req.data, Scope(req.parentType, req.parentRef))
      && forall j | 0 <= j < |l| - 1 :: l[j].name != req.name
  {
    var scope := Scope(req.parentType, req.parentRef);
    var l := st[scope] + [MakeSecret(CreatePayload(req), scope)];
    forall j | 0 <= j < |l| - 1 ensures l[j].name != req.name {
      assert l[j] == st[scope][j];
    }
  }

  /** Update addresses the existing secret by its current name but stores the
      new name: on success the scope holds the updated secret, and after a
      rename the old name is gone from the scope. */
  lemma UpdateRenames(st: Secrets, validateName: string -> bool, req: UpdateSecretRequest)
    requires WellFormed(st)
    ensures var r := UpdateSecretStep(st, Success(true), validateName, req);
      var scope := Scope(req.parentType, req.parentRef);
      r.result.Success? ==>
        && r.result.value == Secret(req.name, req.secretType, req.data, scope)
        && r.result.value in r.secrets[scope]
        && (req.name != req.secretName ==> !HasName(r.secrets[scope], req.secretName))
  {
    var r := UpdateSecretStep(st, Success(true), validateName, req);
    var scope := Scope(req.parentType, req.parentRef);
    if r.result.Success? {
      var l := st[scope];
      var s := MakeSecret(UpdatePayload(req), scope);
      var k :| 0 <= k < |l| && l[k].name == req.secretName;
      assert Replaced(l, req.secretName, s)[k] == s;
      if req.name != req.secretName {
        forall i | 0 <= i < |l| ensures Replaced(l, req.secretName, s)[i].name != req.secretName {
          if i != k {
            assert l[i].name != l[k].name;
          }
        }
      }
    }
  }

  /** Delete does not look at the name's syntax: an owner's delete always
      reaches the store, and on success the name is gone from that scope. */
  lemma DeleteRemovesName(st: Secrets, kind: ObjectKind, ref: string, name: string)
    ensures var r := DeleteSecretStep(st, Success(true), kind, ref, name);
      && r.call == Some(DeleteCall(kind, ref, name))
      && (r.result.Success? ==> !HasName(r.secrets[Scope(kind, ref)], name))
      && (r.result.Failure? ==> r.secrets == st)
  {
    var r := DeleteSecretStep(st, Success(true), kind, ref, name);
    if r.result.Success? {
      var l := r.secrets[Scope(kind, ref)];
      forall i | 0 <= i < |l| ensures l[i].name != name {
        assert l[i] in l;
      }
    }
  }

  /** A write the store refuses answers the store's error, kept as the
      store classified it, with the action's message, and changes nothing. */
  lemma StoreErrorsCarryContext(st: Secrets, validateName: string -> bool,
                                creq: CreateSecretRequest, ureq: UpdateSecretRequest,
                                kind: ObjectKind, ref: string, name: string)
    ensures var s := Create(st, Scope(creq.parentType, creq.parentRef), CreatePayload(creq));
      var r := CreateSecretStep(st, Success(true), validateName, creq);
      validateName(creq.name) && s.result.Failure? ==>
        r.result == Failure(RemoteApiError(s.result.error, Some(CreateFailed))) && r.secrets == st
    ensures var s := Update(st, Scope(ureq.parentType, ureq.parentRef), ureq.secretName, UpdatePayload(ureq));
      var r := UpdateSecretStep(st, Success(true), validateName, ureq);
      validateName(ureq.name) && s.result.Failure? ==>
        r.result == Failure(RemoteApiError(s.result.error, Some(UpdateFailed))) && r.secrets == st
    ensures var s := Delete(st, Scope(kind, ref), name);
      var r := DeleteSecretStep(st, Success(true), kind, ref, name);
      s.result.Failure? ==>
        r.result == Failure(RemoteApiError(s.result.error, Some(DeleteFailed))) && r.secrets == st
  {
  }

  /** Listing involves no ownership check and changes nothing. Without
      overridden-secret removal it answers the store's list as it is; a store
      error comes back as that error, with no list. */
  lemma GetSecretsAnswersStoreList(st: Secrets, ancestors: Scope -> seq<Scope>,
                                   filter: seq<Secret> -> seq<Secret>, req: GetSecretsRequest)
    ensures var r := GetSecretsStep(st, ancestors, filter, req);
      var listed := List(st, ancestors, Scope(req.parentType, req.parentRef), req.tree);
      && r.secrets == st
      && r.call == Some(GetCall(req.parentType, req.parentRef, req.tree))
      && (listed.Failure? ==> r.result == Failure(RemoteApiError(listed.error, None)))
      && (listed.Success? && !req.removeOverridden ==> r.result == Success(listed.value))
      && (listed.Success? && req.removeOverridden ==> r.result == Success(filter(listed.value)))
  {
  }

  /** A plain listing of an existing scope is exactly that scope's secrets;
      a tree listing starts with them. */
  lemma ListedSecretsOfScope(st: Secrets, ancestors: Scope -> seq<Scope>, filter: seq<Secret> -> seq<Secret>,
                             kind: ObjectKind, ref: string, tree: bool)
    requires Scope(kind, ref) in st
    ensures var r := GetSecretsStep(st, ancestors, filter, GetSecretsRequest(kind, ref, tree, false));
      && r.result.Success?
      && r.result.value[..|st[Scope(kind, ref)]|] == st[Scope(kind, ref)]
      && (!tree ==> r.result.value == st[Scope(kind, ref)])
  {
  }

  /** The gateway's action handler. The ownership lookup, the name syntax rule
      and the overridden-secret filter are collaborators whose code is not
      part of this model; they are given as functions. */
  class ActionHandler {
    const configstoreClient: Client
    const isAuthUserVariableOwner: (ObjectKind, string) -> Result<bool, Cause>
    const validateName: string -> bool
    const filterOverriddenSecrets: seq<Secret> -> seq<Secret>

    constructor (configstoreClient: Client,
                 isAuthUserVariableOwner: (ObjectKind, string) -> Result<bool, Cause>,
                 validateName: string -> bool,
                 filterOverriddenSecrets: seq<Secret> -> seq<Secret>)
      ensures this.configstoreClient == configstoreClient
      ensures this.isAuthUserVariableOwner == isAuthUserVariableOwner
      ensures this.validateName == validateName
      ensures this.filterOverriddenSecrets == filterOverriddenSecrets
    {
      this.configstoreClient := configstoreClient;
      this.isAuthUserVariableOwner := isAuthUserVariableOwner;
      this.validateName := validateName;
      this.filterOverriddenSecrets := filterOverriddenSecrets;
    }

    method GetSecrets(req: GetSecretsRequest) returns (r: Result<seq<Secret>, Error>)
      modifies configstoreClient
      ensures var step := GetSecretsStep(old(configstoreClient.secrets), configstoreClient.ancestors,
                                         filterOverriddenSecrets, req);
        && r == step.result
        && configstoreClient.secrets == step.secrets
        && configstoreClient.calls == old(configstoreClient.calls) + CallsOf(step.call)
    {
      var listed: Result<seq<Secret>, Cause>;
      match req.parentType {
        case ProjectGroup =>
          listed := configstoreClient.GetProjectGroupSecrets(req.parentRef, req.tree);
        case Project =>
          listed := configstoreClient.GetProjectSecrets(req.parentRef, req.tree);
      }
      if listed.Failure? {
        return Failure(RemoteApiError(listed.error, None));
      }
      var secrets := listed.value;
      if req.removeOverridden {
        secrets := filterOverriddenSecrets(secrets);
      }
      return Success(secrets);
    }

    method CreateSecret(req: CreateSecretRequest) returns (r: Result<Secret, Error>)
      modifies configstoreClient
      ensures var step := CreateSecretStep(old(configstoreClient.secrets),
                                           isAuthUserVariableOwner(req.parentType, req.parentRef), validateName, req);
        && r == step.result
        && configstoreClient.secrets == step.secrets
        && configstoreClient.calls == old(configstoreClient.calls) + CallsOf(step.call)
    {
      var rejected := WriteGuard(isAuthUserVariableOwner(req.parentType, req.parentRef), Some(req.name), validateName);
      if rejected.Some? {
        return Failure(rejected.value);
      }
      var creq := CreatePayload(req);
      var rs: Result<Secret, Cause>;
      match req.parentType {
        case ProjectGroup =>
          rs := configstoreClient.CreateProjectGroupSecret(req.parentRef, creq);
        case Project =>
          rs := configstoreClient.CreateProjectSecret(req.parentRef, creq);
      }
      r := FromStore(rs, Some(CreateFailed));
    }

    method UpdateSecret(req: UpdateSecretRequest) returns (r: Result<Secret, Error>)
      modifies configstoreClient
      ensures var step := UpdateSecretStep(old(configstoreClient.secrets),
                                           isAuthUserVariableOwner(req.parentType, req.parentRef), validateName, req);
        && r == step.result
        && configstoreClient.secrets == step.secrets
        && configstoreClient.calls == old(configstoreClient.calls) + CallsOf(step.call)
    {
      var rejected := WriteGuard(isAuthUserVariableOwner(req.parentType, req.parentRef), Some(req.name), validateName);
      if rejected.Some? {
        return Failure(rejected.value);
      }
      var creq := UpdatePayload(req);
      var rs: Result<Secret, Cause>;
      match req.parentType {
        case ProjectGroup =>
          rs := configstoreClient.UpdateProjectGroupSecret(req.parentRef, req.secretName, creq);
        case Project =>
          rs := configstoreClient.UpdateProjectSecret(req.parentRef, req.secretName, creq);
      }
      r := FromStore(rs, Some(UpdateFailed));
    }

    method DeleteSecret(parentType: ObjectKind, parentRef: string, name: string) returns (r: Result<(), Error>)
      modifies configstoreClient
      ensures var step := DeleteSecretStep(old(configstoreClient.secrets),
                                           isAuthUserVariableOwner(parentType, parentRef), parentType, parentRef, name);
        && r == step.result
        && configstoreClient.secrets == step.secrets
        && configstoreClient.calls == old(configstoreClient.calls) + CallsOf(step.call)
    {
      var rejected := WriteGuard(isAuthUserVariableOwner(parentType, parentRef), None, _ => true);
      if rejected.Some? {
        return Failure(rejected.value);
      }
      var rs: Result<(), Cause>;
      match parentType {
        case ProjectGroup =>
          rs := configstoreClient.DeleteProjectGroupSecret(parentRef, name);
        case Project =>
          rs := configstoreClient.DeleteProjectSecret(parentRef, name);
      }
      r := FromStore(rs, Some(DeleteFailed));
    }
  }
}
