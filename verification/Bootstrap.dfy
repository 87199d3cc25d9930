/**
 Onboarding: one atomic batch that creates a person's identity, personal workspace, ownership, operation record
 and signup event (apps/worker/src/infra/d1/onboarding-repository.ts:16-94, migrations/0001_d1_identity_workspace.sql,
 migrations/0002_d1_personal_workspace.sql, migrations/0003_d1_onboarding_bootstrap.sql).
 */
module Bootstrap {
  import opened Basics

  datatype Person = Person(issuer: string, subject: string)

  datatype Identity = Identity(id: string, active: bool, createdAt: int)

  datatype WorkspaceStatus = Active | Suspended | Deleted

  datatype Workspace = Workspace(creator: string, personal: bool, status: WorkspaceStatus)

  datatype Member = Member(owner: bool, active: bool)

  datatype MemberKey = MemberKey(workspace: string, id: string)

  datatype OperationKey = OperationKey(id: string, operation: string)

  datatype Operation = Operation(workspace: string, created: bool, at: int)

  datatype Signup = Signup(operation: string, workspace: string, at: int)

  datatype Tables = Tables(
    identities: map<Person, Identity>,      // unique (issuer, subject)
    profiles: set<string>,
    workspaces: map<string, Workspace>,
    personal: map<string, string>,          // the unique index on the creators of personal workspaces
    members: map<MemberKey, Member>,
    audits: set<string>,
    operations: map<OperationKey, Operation>,
    first: map<string, string>,             // the unique index on the operations that created an identity
    signups: map<string, Signup>)           // unique application id

  // The arguments of a call, with its random ids and its time.
  datatype Call = Call(person: Person, operation: string, identityId: string, workspaceId: string, now: int)

  // The subqueries: the active identity, its active personal workspace, and the same with active ownership.
  function IdentityOf(t: Tables, p: Person): Option<string> {
    if p in t.identities && t.identities[p].active then Some(t.identities[p].id) else None
  }

  function PersonalOf(t: Tables, p: Person): Option<string> {
    var i := IdentityOf(t, p);
    if i.Some? && i.value in t.personal && t.personal[i.value] in t.workspaces && t.workspaces[t.personal[i.value]].status == Active
    then Some(t.personal[i.value]) else None
  }

  function AuthorizedOf(t: Tables, p: Person): Option<string> {
    var i, w := IdentityOf(t, p), PersonalOf(t, p);
    if i.Some? && w.Some? && MemberKey(w.value, i.value) in t.members && t.members[MemberKey(w.value, i.value)] == Member(true, true)
    then w else None
  }

  // ---------- the statements; None aborts the batch ----------

  function AddIdentity(t: Tables, c: Call): Option<Tables> {
    if c.person in t.identities then Some(t)
    else if exists p | p in t.identities :: t.identities[p].id == c.identityId then None
    else Some(t.(identities := t.identities[c.person := Identity(c.identityId, true, c.now)]))
  }

  function AddProfile(t: Tables, c: Call): Option<Tables> {
    var i := IdentityOf(t, c.person);
    Some(if i.Some? then t.(profiles := t.profiles + {i.value}) else t)
  }

  function AddWorkspace(t: Tables, c: Call): Option<Tables> {
    var i := IdentityOf(t, c.person);
    if i.None? || i.value in t.personal then Some(t)
    else if c.workspaceId in t.workspaces then None
    else Some(t.(workspaces := t.workspaces[c.workspaceId := Workspace(i.value, true, Active)],
                 personal := t.personal[i.value := c.workspaceId]))
  }

  function AddOwner(t: Tables, c: Call): Option<Tables> {
    var w := PersonalOf(t, c.person);
    if w.None? then Some(t)
    else
      var key := MemberKey(w.value, IdentityOf(t, c.person).value);
      Some(if key in t.members then t else t.(members := t.members[key := Member(true, true)]))
  }

  function AddAudit(t: Tables, c: Call): Option<Tables> {
    if AuthorizedOf(t, c.person) != Some(c.workspaceId) then Some(t)
    else if c.workspaceId in t.audits then None
    else Some(t.(audits := t.audits + {c.workspaceId}))
  }

  // A new operation needs an identity and an authorized workspace: the columns are NOT NULL.
  function AddOperation(t: Tables, c: Call): Option<Tables> {
    var i, w := IdentityOf(t, c.person), AuthorizedOf(t, c.person);
    if i.Some? && OperationKey(i.value, c.operation) in t.operations then Some(t)
    else if i.None? || w.None? then None
    else
      var created := i.value == c.identityId;
      if created && (i.value in t.first || t.identities[c.person].createdAt != c.now) then None
      else Some(t.(operations := t.operations[OperationKey(i.value, c.operation) := Operation(w.value, created, c.now)],
                   first := if created then t.first[i.value := c.operation] else t.first))
  }

  function AddSignup(t: Tables, c: Call): Option<Tables> {
    var i := IdentityOf(t, c.person);
    if i.None? then Some(t)
    else
      var key := OperationKey(i.value, c.operation);
      if key in t.operations && t.operations[key].created && i.value !in t.signups
      then Some(t.(signups := t.signups[i.value := Signup(c.operation, t.operations[key].workspace, t.operations[key].at)]))
      else Some(t)
  }

  function Then(t: Option<Tables>, next: Tables -> Option<Tables>): Option<Tables> { if t.None? then None else next(t.value) }

  function Batch(t: Tables, c: Call): Option<Tables> {
    var t1 := AddIdentity(t, c);
    var t2 := Then(t1, s => AddProfile(s, c));
    var t3 := Then(t2, s => AddWorkspace(s, c));
    var t4 := Then(t3, s => AddOwner(s, c));
    var t5 := Then(t4, s => AddAudit(s, c));
    var t6 := Then(t5, s => AddOperation(s, c));
    Then(t6, s => AddSignup(s, c))
  }

  datatype Denial = Forbidden | WorkspaceUnavailable

  // assertAvailable.
  function AssertAvailable(t: Tables, p: Person): Option<Denial> {
    if p !in t.identities then None
    else if !t.identities[p].active then Some(Forbidden)
    else
      var i := t.identities[p].id;
      if i !in t.personal || t.personal[i] !in t.workspaces then None
      else
        var w := t.personal[i];
        if t.workspaces[w].status != Active then Some(WorkspaceUnavailable)
        else if MemberKey(w, i) in t.members && t.members[MemberKey(w, i)] != Member(true, true) then Some(Forbidden)
        else None
  }

  datatype Ready = Ready(workspace: string, created: bool)

  // The read after the batch.
  function ReadBack(t: Tables, p: Person, operation: string): Option<Ready> {
    var i := IdentityOf(t, p);
    if i.Some? && OperationKey(i.value, operation) in t.operations
       && AuthorizedOf(t, p) == Some(t.operations[OperationKey(i.value, operation)].workspace)
    then Some(Ready(t.operations[OperationKey(i.value, operation)].workspace, t.operations[OperationKey(i.value, operation)].created))
    else None
  }

  // ---------- the database ----------

  class Database {
    var tables: Tables

    constructor (t: Tables)
      ensures tables == t
    {
      tables := t;
    }

    // The batch is the transaction: one refused statement undoes all of them.
    method Bootstrap(c: Call) returns (committed: bool)
      modifies this
      ensures committed == Batch(old(tables), c).Some?
      ensures tables == if committed then Batch(old(tables), c).value else old(tables)
    {
      var before := tables;
      committed := false;
      var s := AddIdentity(tables, c);
      if s.None? { return; }
      tables := s.value;
      s := AddProfile(tables, c);
      tables := s.value;
      s := AddWorkspace(tables, c);
      if s.None? { tables := before; return; }
      tables := s.value;
      s := AddOwner(tables, c);
      tables := s.value;
      s := AddAudit(tables, c);
      if s.None? { tables := before; return; }
      tables := s.value;
      s := AddOperation(tables, c);
      if s.None? { tables := before; return; }
      tables := s.value;
      s := AddSignup(tables, c);
      tables := s.value;
      committed := true;
    }
  }

  // ---------- what the tables keep ----------

  predicate UniqueIds(t: Tables) {
    forall p, q | p in t.identities && q in t.identities && t.identities[p].id == t.identities[q].id :: p == q
  }

  // The index lists the personal workspaces: one for each creator.
  predicate PersonalIndex(t: Tables) {
    && (forall w | w in t.workspaces && t.workspaces[w].personal ::
          t.workspaces[w].creator in t.personal && t.personal[t.workspaces[w].creator] == w)
    && (forall i | i in t.personal :: t.personal[i] in t.workspaces && t.workspaces[t.personal[i]] .personal
          && t.workspaces[t.personal[i]].creator == i)
  }

  predicate FirstIndex(t: Tables) {
    && (forall k | k in t.operations && t.operations[k].created :: k.id in t.first && t.first[k.id] == k.operation)
    && (forall i | i in t.first :: OperationKey(i, t.first[i]) in t.operations && t.operations[OperationKey(i, t.first[i])].created)
  }

  // Every signup event is that of the operation which created the identity.
  predicate SignupsOk(t: Tables) {
    forall i | i in t.signups ::
      var k := OperationKey(i, t.signups[i].operation);
      k in t.operations && t.operations[k].created && t.signups[i].workspace == t.operations[k].workspace && t.signups[i].at == t.operations[k].at
  }

  predicate Schema(t: Tables) { UniqueIds(t) && PersonalIndex(t) && FirstIndex(t) && SignupsOk(t) }

  // An identity that a batch created has its operation and its signup event.
  predicate Complete(t: Tables, born: set<string>) { forall i | i in born :: i in t.first && i in t.signups }

  predicate NewPerson(t: Tables, c: Call) { c.person !in t.identities }

  // Random ids do not repeat.
  predicate FreshIds(t: Tables, c: Call) {
    && (forall p | p in t.identities :: t.identities[p].id != c.identityId)
    && c.identityId !in t.personal && c.identityId !in t.first && c.identityId !in t.signups
    && c.workspaceId !in t.workspaces && c.workspaceId !in t.audits
    && (forall k | k in t.members :: k.workspace != c.workspaceId)
    && (forall k | k in t.operations :: k.id != c.identityId)
  }
}
