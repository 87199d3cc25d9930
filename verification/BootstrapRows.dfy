/**
 Which rows a bootstrap writes, and what it answers: for a person never seen before, and for one who comes back
 (apps/worker/src/infra/d1/onboarding-repository.ts:32-94).
 */
module BootstrapRows {
  import opened Basics
  import opened Bootstrap
  import opened BootstrapLaws

  // ---------- who may be served ----------

  // The identity is enabled, its personal workspace is active if there is one, and its row among the members, if there
  // is one, is an active owner's.
  lemma AvailableIff(t: Tables, p: Person)
    ensures AssertAvailable(t, p).None? <==>
            p in t.identities ==>
              var i := t.identities[p];
              && i.active
              && (i.id in t.personal && t.personal[i.id] in t.workspaces ==>
                    && t.workspaces[t.personal[i.id]].status == Active
                    && (MemberKey(t.personal[i.id], i.id) in t.members ==> t.members[MemberKey(t.personal[i.id], i.id)] == Member(true, true)))
    ensures AssertAvailable(t, p) == Some(WorkspaceUnavailable) <==>
            && p in t.identities && t.identities[p].active && t.identities[p].id in t.personal
            && t.personal[t.identities[p].id] in t.workspaces && t.workspaces[t.personal[t.identities[p].id]].status != Active
  {
  }

  // The answer is read only for somebody who may be served, from the recorded operation, and only while its workspace
  // is the person's own.
  lemma ReadBackIff(t: Tables, p: Person, operation: string, r: Ready)
    ensures ReadBack(t, p, operation) == Some(r) <==>
            && p in t.identities && t.identities[p].active
            && var i := t.identities[p].id; var k := OperationKey(i, operation);
               && k in t.operations && t.operations[k].workspace == r.workspace && t.operations[k].created == r.created
               && i in t.personal && t.personal[i] == r.workspace && r.workspace in t.workspaces && t.workspaces[r.workspace].status == Active
               && MemberKey(r.workspace, i) in t.members && t.members[MemberKey(r.workspace, i)] == Member(true, true)
  {
  }

  lemma DeniedIsNotAnswered(t: Tables, p: Person, operation: string)
    requires AssertAvailable(t, p).Some?
    ensures ReadBack(t, p, operation).None?
  {
  }

  // ---------- a person never seen before ----------

  function WithIdentity(t: Tables, c: Call): Tables {
    t.(identities := t.identities[c.person := Identity(c.identityId, true, c.now)], profiles := t.profiles + {c.identityId})
  }

  function WithWorkspace(t: Tables, c: Call): Tables {
    t.(workspaces := t.workspaces[c.workspaceId := Workspace(c.identityId, true, Active)], personal := t.personal[c.identityId := c.workspaceId],
       members := t.members[MemberKey(c.workspaceId, c.identityId) := Member(true, true)], audits := t.audits + {c.workspaceId})
  }

  function WithOperation(t: Tables, c: Call): Tables {
    t.(operations := t.operations[OperationKey(c.identityId, c.operation) := Operation(c.workspaceId, true, c.now)],
       first := t.first[c.identityId := c.operation], signups := t.signups[c.identityId := Signup(c.operation, c.workspaceId, c.now)])
  }

  lemma IdentityRows(t: Tables, c: Call)
    requires FreshIds(t, c) && NewPerson(t, c)
    ensures Then(AddIdentity(t, c), s => AddProfile(s, c)) == Some(WithIdentity(t, c))
  {
    assert IdentityOf(AddIdentity(t, c).value, c.person) == Some(c.identityId);
  }

  predicate Identified(t: Tables, c: Call) { c.person in t.identities && t.identities[c.person] == Identity(c.identityId, true, c.now) }

  lemma WorkspaceRows(t: Tables, c: Call)
    requires Identified(t, c) && FreshIdsBut(t, c)
    ensures Then(Then(AddWorkspace(t, c), s => AddOwner(s, c)), s => AddAudit(s, c)) == Some(WithWorkspace(t, c))
    ensures AuthorizedOf(WithWorkspace(t, c), c.person) == Some(c.workspaceId)
  {
    var t3 := AddWorkspace(t, c).value;
    assert PersonalOf(t3, c.person) == Some(c.workspaceId);
    var t4 := AddOwner(t3, c).value;
    assert AuthorizedOf(t4, c.person) == Some(c.workspaceId);
  }

  // The random ids are fresh everywhere but among the identities.
  predicate FreshIdsBut(t: Tables, c: Call) {
    && c.identityId !in t.personal && c.identityId !in t.first && c.identityId !in t.signups
    && c.workspaceId !in t.workspaces && c.workspaceId !in t.audits
    && (forall k | k in t.members :: k.workspace != c.workspaceId) && (forall k | k in t.operations :: k.id != c.identityId)
  }

  lemma OperationRows(t: Tables, c: Call)
    requires Identified(t, c) && AuthorizedOf(t, c.person) == Some(c.workspaceId)
    requires c.identityId !in t.first && c.identityId !in t.signups && OperationKey(c.identityId, c.operation) !in t.operations
    ensures Then(AddOperation(t, c), s => AddSignup(s, c)) == Some(WithOperation(t, c))
  {
  }

  // Exactly one row of each kind is written, and the answer says that the identity is new.
  lemma FirstRows(t: Tables, c: Call)
    requires FreshIds(t, c) && NewPerson(t, c)
    ensures var n := t.(
              identities := t.identities[c.person := Identity(c.identityId, true, c.now)], profiles := t.profiles + {c.identityId},
              workspaces := t.workspaces[c.workspaceId := Workspace(c.identityId, true, Active)],
              personal := t.personal[c.identityId := c.workspaceId],
              members := t.members[MemberKey(c.workspaceId, c.identityId) := Member(true, true)], audits := t.audits + {c.workspaceId},
              operations := t.operations[OperationKey(c.identityId, c.operation) := Operation(c.workspaceId, true, c.now)],
              first := t.first[c.identityId := c.operation],
              signups := t.signups[c.identityId := Signup(c.operation, c.workspaceId, c.now)]);
            Batch(t, c) == Some(n) && ReadBack(n, c.person, c.operation) == Some(Ready(c.workspaceId, true))
  {
    var t2 := WithIdentity(t, c);
    var t5 := WithWorkspace(t2, c);
    IdentityRows(t, c);
    WorkspaceRows(t2, c);
    OperationRows(t5, c);
    AnsweredFirst(WithOperation(t5, c), c);
  }

  lemma AnsweredFirst(n: Tables, c: Call)
    requires Identified(n, c) && c.identityId in n.personal && n.personal[c.identityId] == c.workspaceId
    requires c.workspaceId in n.workspaces && n.workspaces[c.workspaceId].status == Active
    requires MemberKey(c.workspaceId, c.identityId) in n.members && n.members[MemberKey(c.workspaceId, c.identityId)] == Member(true, true)
    requires var k := OperationKey(c.identityId, c.operation); k in n.operations && n.operations[k] == Operation(c.workspaceId, true, c.now)
    ensures ReadBack(n, c.person, c.operation) == Some(Ready(c.workspaceId, true))
  {
  }

  // ---------- a person who comes back ----------

  // A new operation of a person who may be served is recorded for the personal workspace, as one that created no
  // identity, and answered so.
  lemma LaterRows(t: Tables, c: Call) returns (n: Tables)
    requires Schema(t) && FreshIds(t, c) && c.person in t.identities && AssertAvailable(t, c.person).None? && NewOperation(t, c)
    ensures Batch(t, c) == Some(n) && n.identities == t.identities
    ensures var i := t.identities[c.person].id; var k := OperationKey(i, c.operation);
            && i in n.personal && n.operations == t.operations[k := Operation(n.personal[i], false, c.now)]
            && (i in t.personal ==> n.personal[i] == t.personal[i])
            && ReadBack(n, c.person, c.operation) == Some(Ready(n.personal[i], false))
  {
    var t5 := Prepared(t, c);
    n := RecordedLater(t5, c);
    BatchKeeps(t, c);
  }

  lemma RecordedLater(t: Tables, c: Call) returns (n: Tables)
    requires c.person in t.identities && IdentityOf(t, c.person) == Some(t.identities[c.person].id) && AuthorizedOf(t, c.person).Some?
    requires t.identities[c.person].id != c.identityId && OperationKey(t.identities[c.person].id, c.operation) !in t.operations
    ensures var i := t.identities[c.person].id; var k := OperationKey(i, c.operation);
            && i in t.personal && n == t.(operations := t.operations[k := Operation(t.personal[i], false, c.now)])
            && Then(AddOperation(t, c), s => AddSignup(s, c)) == Some(n)
            && ReadBack(n, c.person, c.operation) == Some(Ready(t.personal[i], false))
  {
    AuthorizedIsPersonal(t, c.person);
    n := AddOperation(t, c).value;
    AuthorizedSame(t, n, c.person);
  }
}
