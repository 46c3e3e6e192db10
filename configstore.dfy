/** The configstore as the gateway's secret actions see it: secrets grouped by
    the scope (project or project group) that owns them, and the client calls
    the gateway makes on it. The configstore itself is not part of this model;
    the behaviour written here for its secret calls (not found, already
    exists, insert, replace, remove, list with ancestors) is the least a store
    of named secrets does, and is what the gateway's actions are proved
    against. */
module ConfigStore {
  import opened Common

  /** The two kinds of parent a secret can have. Any other kind is ruled out
      by this type. */
  datatype ObjectKind = ProjectGroup | Project

  /** A parent scope: its kind and its reference (id or path). */
  datatype Scope = Scope(kind: ObjectKind, ref: string)

  datatype SecretType = Internal | External

  /** The body of a create or update call: exactly a name, a type and data. */
  datatype SecretPayload = SecretPayload(name: string, secretType: SecretType, data: map<string, string>)

  /** A stored secret, tagged with the scope that owns it. */
  datatype Secret = Secret(name: string, secretType: SecretType, data: map<string, string>, parent: Scope)

  /** The secrets of every existing scope, in the store's order. A scope is
      in the map exactly when its project or project group exists. */
  type Secrets = map<Scope, seq<Secret>>

  /** The client calls that reach the store, with their arguments. */
  datatype StoreCall =
    | GetProjectGroupSecrets(ref: string, tree: bool)
    | GetProjectSecrets(ref: string, tree: bool)
    | CreateProjectGroupSecret(ref: string, payload: SecretPayload)
    | CreateProjectSecret(ref: string, payload: SecretPayload)
    | UpdateProjectGroupSecret(ref: string, secretName: string, payload: SecretPayload)
    | UpdateProjectSecret(ref: string, secretName: string, payload: SecretPayload)
    | DeleteProjectGroupSecret(ref: string, name: string)
    | DeleteProjectSecret(ref: string, name: string)

  /** What a store call answers and the secrets it leaves. */
  datatype StoreStep<+T> = StoreStep(result: Result<T, Cause>, secrets: Secrets)

  predicate HasName(l: seq<Secret>, name: string) {
    exists i | 0 <= i < |l| :: l[i].name == name
  }

  /** Names are unique within a scope. */
  predicate DistinctNames(l: seq<Secret>) {
    forall i, j | 0 <= i < j < |l| :: l[i].name != l[j].name
  }

  /** Every secret of a scope's list is owned by that scope and no two share
      a name. */
  predicate WellFormed(st: Secrets) {
    forall s | s in st :: DistinctNames(st[s]) && forall i | 0 <= i < |st[s]| :: st[s][i].parent == s
  }

  function MakeSecret(p: SecretPayload, scope: Scope): Secret {
    Secret(p.name, p.secretType, p.data, scope)
  }

  /** `l` without the secret called `name`. */
  function Without(l: seq<Secret>, name: string): (r: seq<Secret>)
    ensures forall x :: x in r <==> x in l && x.name != name
    ensures DistinctNames(l) ==> DistinctNames(r)
  {
    if l == [] then []
    else if l[0].name == name then Without(l[1..], name)
    else
      assert forall x :: x in l[1..] ==> x.name != l[0].name || !DistinctNames(l) by {
        forall x | x in l[1..] && DistinctNames(l) ensures x.name != l[0].name {
          var j :| 0 <= j < |l[1..]| && l[1..][j] == x;
          assert l[j + 1] == x;
        }
      }
      [l[0]] + Without(l[1..], name)
  }

  /** `l` with the secret called `name` replaced by `s`, in the same place. */
  function Replaced(l: seq<Secret>, name: string, s: Secret): (r: seq<Secret>) {
    seq(|l|, i requires 0 <= i < |l| => if l[i].name == name then s else l[i])
  }

  /** The secrets of the given scopes, one scope after the other; a scope the
      store does not know contributes nothing. */
  function Gather(st: Secrets, scopes: seq<Scope>): (r: seq<Secret>)
    ensures forall x :: x in r ==> exists k :: 0 <= k < |scopes| && scopes[k] in st && x in st[scopes[k]]
  {
    if scopes == [] then []
    else
      var rest := Gather(st, scopes[1..]);
      assert forall x :: x in rest ==> exists k :: 0 <= k < |scopes| && scopes[k] in st && x in st[scopes[k]] by {
        forall x | x in rest ensures exists k :: 0 <= k < |scopes| && scopes[k] in st && x in st[scopes[k]] {
          var k :| 0 <= k < |scopes[1..]| && scopes[1..][k] in st && x in st[scopes[1..][k]];
          assert scopes[k + 1] == scopes[1..][k];
        }
      }
      (if scopes[0] in st then st[scopes[0]] else []) + rest
  }

  /** Listing a scope's secrets; with `tree` its ancestors' secrets follow. */
  function List(st: Secrets, ancestors: Scope -> seq<Scope>, scope: Scope, tree: bool): Result<seq<Secret>, Cause> {
    if scope !in st then Failure(NotFound(scope.ref))
    else if !tree then Success(st[scope])
    else Success(st[scope] + Gather(st, ancestors(scope)))
  }

  /** Creating a secret in a scope: refused when the scope is unknown or the
      name is taken, appended otherwise. */
  function Create(st: Secrets, scope: Scope, p: SecretPayload): StoreStep<Secret> {
    if scope !in st then StoreStep(Failure(NotFound(scope.ref)), st)
    else if HasName(st[scope], p.name) then StoreStep(Failure(AlreadyExists(p.name)), st)
    else
      var s := MakeSecret(p, scope);
      StoreStep(Success(s), st[scope := st[scope] + [s]])
  }

  /** Updating the secret `secretName` of a scope with a payload that may
      rename it: refused when the scope or the secret is unknown, or when the
      new name belongs to another secret of the scope. */
  function Update(st: Secrets, scope: Scope, secretName: string, p: SecretPayload): StoreStep<Secret> {
    if scope !in st then StoreStep(Failure(NotFound(scope.ref)), st)
    else if !HasName(st[scope], secretName) then StoreStep(Failure(NotFound(secretName)), st)
    else if p.name != secretName && HasName(st[scope], p.name) then StoreStep(Failure(AlreadyExists(p.name)), st)
    else
      var s := MakeSecret(p, scope);
      StoreStep(Success(s), st[scope := Replaced(st[scope], secretName, s)])
  }

  /** Deleting the secret `name` of a scope: refused when the scope or the
      secret is unknown. */
  function Delete(st: Secrets, scope: Scope, name: string): StoreStep<()> {
    if scope !in st then StoreStep(Failure(NotFound(scope.ref)), st)
    else if !HasName(st[scope], name) then StoreStep(Failure(NotFound(name)), st)
    else StoreStep(Success(()), st[scope := Without(st[scope], name)])
  }

  lemma CreateKeepsWellFormed(st: Secrets, scope: Scope, p: SecretPayload)
    requires WellFormed(st)
    ensures WellFormed(Create(st, scope, p).secrets)
  {
    if scope in st && !HasName(st[scope], p.name) {
      var l := st[scope] + [MakeSecret(p, scope)];
      forall i, j | 0 <= i < j < |l| ensures l[i].name != l[j].name {
        if j == |l| - 1 {
          assert st[scope][i].name != p.name;
        }
      }
    }
  }

  lemma {:induction false} ReplacedDistinct(l: seq<Secret>, name: string, s: Secret)
    requires DistinctNames(l) && HasName(l, name)
    requires s.name == name || !HasName(l, s.name)
    ensures DistinctNames(Replaced(l, name, s))
  {
    var r := Replaced(l, name, s);
    forall i, j | 0 <= i < j < |r| ensures r[i].name != r[j].name {
      if l[i].name == name {
        assert l[j].name != name;
        assert s.name != l[j].name;
      } else if l[j].name == name {
        assert s.name != l[i].name;
      }
    }
  }

  lemma UpdateKeepsWellFormed(st: Secrets, scope: Scope, secretName: string, p: SecretPayload)
    requires WellFormed(st)
    ensures WellFormed(Update(st, scope, secretName, p).secrets)
  {
    if scope in st && HasName(st[scope], secretName) && !(p.name != secretName && HasName(st[scope], p.name)) {
      ReplacedDistinct(st[scope], secretName, MakeSecret(p, scope));
    }
  }

  lemma DeleteKeepsWellFormed(st: Secrets, scope: Scope, name: string)
    requires WellFormed(st)
    ensures WellFormed(Delete(st, scope, name).secrets)
  {
    if scope in st && HasName(st[scope], name) {
      var r := Without(st[scope], name);
      forall i | 0 <= i < |r| ensures r[i].parent == scope {
        assert r[i] in st[scope];
      }
    }
  }

  /** The store client. `secrets` is the store's state and `calls` the calls
      received so far, in order; `ancestors` is the project-group hierarchy,
      which the store owns and these calls do not change. */
  class Client {
    var secrets: Secrets
    var calls: seq<StoreCall>
    const ancestors: Scope -> seq<Scope>

    constructor (secrets: Secrets, ancestors: Scope -> seq<Scope>)
      ensures this.secrets == secrets && this.ancestors == ancestors && calls == []
    {
      this.secrets := secrets;
      this.ancestors := ancestors;
      calls := [];
    }

    method GetProjectGroupSecrets(ref: string, tree: bool) returns (r: Result<seq<Secret>, Cause>)
      modifies this
      ensures r == List(secrets, ancestors, Scope(ProjectGroup, ref), tree)
      ensures secrets == old(secrets) && calls == old(calls) + [StoreCall.GetProjectGroupSecrets(ref, tree)]
    {
      calls := calls + [StoreCall.GetProjectGroupSecrets(ref, tree)];
      r := List(secrets, ancestors, Scope(ProjectGroup, ref), tree);
    }

    method GetProjectSecrets(ref: string, tree: bool) returns (r: Result<seq<Secret>, Cause>)
      modifies this
      ensures r == List(secrets, ancestors, Scope(Project, ref), tree)
      ensures secrets == old(secrets) && calls == old(calls) + [StoreCall.GetProjectSecrets(ref, tree)]
    {
      calls := calls + [StoreCall.GetProjectSecrets(ref, tree)];
      r := List(secrets, ancestors, Scope(Project, ref), tree);
    }

    method CreateProjectGroupSecret(ref: string, p: SecretPayload) returns (r: Result<Secret, Cause>)
      modifies this
      ensures StoreStep(r, secrets) == Create(old(secrets), Scope(ProjectGroup, ref), p)
      ensures calls == old(calls) + [StoreCall.CreateProjectGroupSecret(ref, p)]
    {
      calls := calls + [StoreCall.CreateProjectGroupSecret(ref, p)];
      var step := Create(secrets, Scope(ProjectGroup, ref), p);
      r, secrets := step.result, step.secrets;
    }

    method CreateProjectSecret(ref: string, p: SecretPayload) returns (r: Result<Secret, Cause>)
      modifies this
      ensures StoreStep(r, secrets) == Create(old(secrets), Scope(Project, ref), p)
      ensures calls == old(calls) + [StoreCall.CreateProjectSecret(ref, p)]
    {
      calls := calls + [StoreCall.CreateProjectSecret(ref, p)];
      var step := Create(secrets, Scope(Project, ref), p);
      r, secrets := step.result, step.secrets;
    }

    method UpdateProjectGroupSecret(ref: string, secretName: string, p: SecretPayload) returns (r: Result<Secret, Cause>)
      modifies this
      ensures StoreStep(r, secrets) == Update(old(secrets), Scope(ProjectGroup, ref), secretName, p)
      ensures calls == old(calls) + [StoreCall.UpdateProjectGroupSecret(ref, secretName, p)]
    {
      calls := calls + [StoreCall.UpdateProjectGroupSecret(ref, secretName, p)];
      var step := Update(secrets, Scope(ProjectGroup, ref), secretName, p);
      r, secrets := step.result, step.secrets;
    }

    method UpdateProjectSecret(ref: string, secretName: string, p: SecretPayload) returns (r: Result<Secret, Cause>)
      modifies this
      ensures StoreStep(r, secrets) == Update(old(secrets), Scope(Project, ref), secretName, p)
      ensures calls == old(calls) + [StoreCall.UpdateProjectSecret(ref, secretName, p)]
    {
      calls := calls + [StoreCall.UpdateProjectSecret(ref, secretName, p)];
      var step := Update(secrets, Scope(Project, ref), secretName, p);
      r, secrets := step.result, step.secrets;
    }

    method DeleteProjectGroupSecret(ref: string, name: string) returns (r: Result<(), Cause>)
      modifies this
      ensures StoreStep(r, secrets) == Delete(old(secrets), Scope(ProjectGroup, ref), name)
      ensures calls == old(calls) + [StoreCall.DeleteProjectGroupSecret(ref, name)]
    {
      calls := calls + [StoreCall.DeleteProjectGroupSecret(ref, name)];
      var step := Delete(secrets, Scope(ProjectGroup, ref), name);
      r, secrets := step.result, step.secrets;
    }

    method DeleteProjectSecret(ref: string, name: string) returns (r: Result<(), Cause>)
      modifies this
      ensures StoreStep(r, secrets) == Delete(old(secrets), Scope(Project, ref), name)
      ensures calls == old(calls) + [StoreCall.DeleteProjectSecret(ref, name)]
    {
      calls := calls + [StoreCall.DeleteProjectSecret(ref, name)];
      var step := Delete(secrets, Scope(Project, ref), name);
      r, secrets := step.result, step.secrets;
    }
  }
}
