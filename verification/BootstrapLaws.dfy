/** What bootstrap promises over any sequence of batches and outside changes. */
module BootstrapLaws {
  import opened Basics
  import opened Bootstrap

  // Identities keep their ids, workspaces their creator and kind; operations and signup events are append-only.
  ghost predicate Stable(t: Tables, n: Tables) {
    && (forall p | p in t.identities :: p in n.identities && n.identities[p].id == t.identities[p].id)
    && (forall w | w in t.workspaces :: w in n.workspaces && n.workspaces[w].creator == t.workspaces[w].creator
          && n.workspaces[w].personal == t.workspaces[w].personal)
    && (forall k | k in t.operations :: k in n.operations && n.operations[k] == t.operations[k])
    && (forall i | i in t.signups :: i in n.signups && n.signups[i] == t.signups[i])
    && (forall i | i in t.first :: i in n.first)
  }

  lemma StableStays(a: Tables, b: Tables, c: Tables)
    requires Stable(a, b) && Stable(b, c)
    ensures Stable(a, c)
  {
  }

  ghost predicate Keeps(t: Tables, n: Option<Tables>) { n.Some? ==> Schema(n.value) && Stable(t, n.value) }

  // Profiles, members and audit rows are under none of the constraints here.
  lemma SchemaSame(t: Tables, n: Tables)
    requires Schema(t) && n == t.(profiles := n.profiles, members := n.members, audits := n.audits)
    ensures Schema(n) && Stable(t, n)
  {
  }

  lemma OperationsSame(t: Tables, n: Tables)
    requires Schema(t) && n.operations == t.operations && n.first == t.first && n.signups == t.signups
    ensures FirstIndex(n) && SignupsOk(n)
  {
  }

  // Authorization reads four of the tables.
  lemma AuthorizedSame(t: Tables, n: Tables, p: Person)
    requires n.identities == t.identities && n.personal == t.personal && n.workspaces == t.workspaces
    ensures PersonalOf(n, p) == PersonalOf(t, p)
    ensures n.members == t.members ==> AuthorizedOf(n, p) == AuthorizedOf(t, p)
  {
  }

  lemma IdentityKeeps(t: Tables, c: Call)
    requires Schema(t)
    ensures Keeps(t, AddIdentity(t, c))
  {
    if AddIdentity(t, c).Some? {
      var n := AddIdentity(t, c).value;
      assert n == t.(identities := n.identities);
      IdentitiesUnique(t, c);
      OperationsSame(t, n);
    }
  }

  lemma IdentitiesUnique(t: Tables, c: Call)
    requires UniqueIds(t) && AddIdentity(t, c).Some?
    ensures var n := AddIdentity(t, c).value;
            UniqueIds(n) && forall p | p in t.identities :: p in n.identities && n.identities[p] == t.identities[p]
  {
  }

  lemma ProfileKeeps(t: Tables, c: Call)
    requires Schema(t)
    ensures Keeps(t, AddProfile(t, c))
  {
    SchemaSame(t, AddProfile(t, c).value);
  }

  lemma WorkspaceKeeps(t: Tables, c: Call)
    requires Schema(t)
    ensures Keeps(t, AddWorkspace(t, c))
  {
    if AddWorkspace(t, c).Some? {
      var n := AddWorkspace(t, c).value;
      assert n == t.(workspaces := n.workspaces, personal := n.personal);
      WorkspacesIndexed(t, c);
      OperationsSame(t, n);
    }
  }

  lemma WorkspacesIndexed(t: Tables, c: Call)
    requires PersonalIndex(t) && AddWorkspace(t, c).Some?
    ensures var n := AddWorkspace(t, c).value;
            PersonalIndex(n) && forall w | w in t.workspaces :: w in n.workspaces && n.workspaces[w] == t.workspaces[w]
  {
  }

  lemma MembersKeep(t: Tables, c: Call)
    requires Schema(t)
    ensures Keeps(t, AddOwner(t, c)) && Keeps(t, AddAudit(t, c))
  {
    SchemaSame(t, AddOwner(t, c).value);
    if AddAudit(t, c).Some? { SchemaSame(t, AddAudit(t, c).value); }
  }

  lemma OperationKeeps(t: Tables, c: Call)
    requires Schema(t)
    ensures Keeps(t, AddOperation(t, c))
  {
    if AddOperation(t, c).Some? {
      var n := AddOperation(t, c).value;
      assert n == t.(operations := n.operations, first := n.first);
      OperationIndex(t, c);
    }
  }

  lemma OperationIndex(t: Tables, c: Call)
    requires Schema(t) && AddOperation(t, c).Some?
    ensures var n := AddOperation(t, c).value;
            FirstIndex(n) && (forall k | k in t.operations :: k in n.operations && n.operations[k] == t.operations[k])
            && (forall i | i in t.first :: i in n.first)
  {
  }

  lemma SignupKeeps(t: Tables, c: Call)
    requires Schema(t)
    ensures Keeps(t, AddSignup(t, c))
  {
    var n := AddSignup(t, c).value;
    assert n == t.(signups := n.signups);
    SignupIsRecorded(t, c);
  }

  lemma SignupIsRecorded(t: Tables, c: Call)
    requires Schema(t)
    ensures var n := AddSignup(t, c).value; SignupsOk(n) && forall i | i in t.signups :: i in n.signups && n.signups[i] == t.signups[i]
  {
  }

  // The tables after each statement of a batch that commits.
  datatype Trace = Trace(t1: Tables, t2: Tables, t3: Tables, t4: Tables, t5: Tables, t6: Tables, t7: Tables)

  ghost predicate Committed(t: Tables, c: Call, r: Trace) {
    && AddIdentity(t, c) == Some(r.t1) && AddProfile(r.t1, c) == Some(r.t2) && AddWorkspace(r.t2, c) == Some(r.t3)
    && AddOwner(r.t3, c) == Some(r.t4) && AddAudit(r.t4, c) == Some(r.t5) && AddOperation(r.t5, c) == Some(r.t6)
    && AddSignup(r.t6, c) == Some(r.t7)
  }

  lemma TraceOf(t: Tables, c: Call) returns (r: Trace)
    requires Batch(t, c).Some?
    ensures Committed(t, c, r) && Batch(t, c) == Some(r.t7)
  {
    var t1 := AddIdentity(t, c).value;
    var t2 := AddProfile(t1, c).value;
    var t3 := AddWorkspace(t2, c).value;
    var t4 := AddOwner(t3, c).value;
    var t5 := AddAudit(t4, c).value;
    var t6 := AddOperation(t5, c).value;
    r := Trace(t1, t2, t3, t4, t5, t6, AddSignup(t6, c).value);
  }

  // A batch keeps every uniqueness constraint without ever running into one of the unique indexes.
  lemma BatchKeeps(t: Tables, c: Call)
    requires Schema(t)
    ensures Keeps(t, Batch(t, c))
  {
    if Batch(t, c).Some? {
      var r := TraceOf(t, c);
      IdentityKeeps(t, c);
      ProfileKeeps(r.t1, c);
      WorkspaceKeeps(r.t2, c);
      MembersKeep(r.t3, c);
      MembersKeep(r.t4, c);
      OperationKeeps(r.t5, c);
      SignupKeeps(r.t6, c);
      StableStays(t, r.t1, r.t2);
      StableStays(t, r.t2, r.t3);
      StableStays(t, r.t3, r.t4);
      StableStays(t, r.t4, r.t5);
      StableStays(t, r.t5, r.t6);
      StableStays(t, r.t6, r.t7);
    }
  }

  predicate NewOperation(t: Tables, c: Call) {
    !(c.person in t.identities && OperationKey(t.identities[c.person].id, c.operation) in t.operations)
  }

  predicate Disabled(t: Tables, p: Person) { p in t.identities && !t.identities[p].active }

  // The identity after the first statement.
  lemma PreparedIdentity(t: Tables, c: Call) returns (t2: Tables)
    requires Schema(t) && FreshIds(t, c) && AssertAvailable(t, c.person).None?
    ensures AddIdentity(t, c).Some? && AddProfile(AddIdentity(t, c).value, c) == Some(t2)
    ensures Schema(t2) && c.person in t2.identities && IdentityOf(t2, c.person) == Some(t2.identities[c.person].id)
    ensures AssertAvailable(t2, c.person).None?
    ensures c.person !in t.identities ==> t2.identities[c.person].id !in t2.personal
    ensures t2 == t.(identities := t2.identities, profiles := t2.profiles)
    ensures t2.identities == if c.person in t.identities then t.identities
                             else t.identities[c.person := Identity(c.identityId, true, c.now)]
  {
    var t1 := AddIdentity(t, c).value;
    t2 := AddProfile(t1, c).value;
    assert t2 == t1.(profiles := t2.profiles);
    IdentityKeeps(t, c);
    ProfileKeeps(t1, c);
    if c.person !in t.identities { NewIdentityIsAvailable(t, t2, c); }
  }

  lemma NewIdentityIsAvailable(t: Tables, t2: Tables, c: Call)
    requires FreshIds(t, c) && c.person !in t.identities
    requires t2 == t.(identities := t.identities[c.person := Identity(c.identityId, true, c.now)], profiles := t2.profiles)
    ensures AssertAvailable(t2, c.person).None? && IdentityOf(t2, c.person) == Some(c.identityId) && c.identityId !in t2.personal
  {
  }

  // Its workspace after the third; a member row there is not one that forbids.
  lemma PreparedHome(t2: Tables, c: Call) returns (t3: Tables, w: string)
    requires Schema(t2) && c.person in t2.identities && IdentityOf(t2, c.person) == Some(t2.identities[c.person].id)
    requires AssertAvailable(t2, c.person).None? && c.workspaceId !in t2.workspaces
    requires forall k | k in t2.members :: k.workspace != c.workspaceId
    ensures AddWorkspace(t2, c) == Some(t3) && PersonalOf(t3, c.person) == Some(w)
    ensures t3 == t2.(workspaces := t3.workspaces, personal := t3.personal)
    ensures var key := MemberKey(w, t2.identities[c.person].id);
            key in t3.members ==> t3.members[key] == Member(true, true)
  {
    var i := t2.identities[c.person].id;
    t3 := AddWorkspace(t2, c).value;
    w := t3.personal[i];
  }

  lemma PreparedOwner(t3: Tables, c: Call, w: string) returns (t4: Tables)
    requires PersonalOf(t3, c.person) == Some(w) && IdentityOf(t3, c.person).Some?
    requires var key := MemberKey(w, IdentityOf(t3, c.person).value); key in t3.members ==> t3.members[key] == Member(true, true)
    ensures AddOwner(t3, c) == Some(t4) && AuthorizedOf(t4, c.person) == Some(w)
    ensures t4 == t3.(members := t4.members)
  {
    t4 := AddOwner(t3, c).value;
    AuthorizedSame(t3, t4, c.person);
  }

  // Its workspace and ownership after the third to fifth.
  lemma PreparedWorkspace(t2: Tables, c: Call) returns (t5: Tables)
    requires Schema(t2) && c.person in t2.identities && IdentityOf(t2, c.person) == Some(t2.identities[c.person].id)
    requires AssertAvailable(t2, c.person).None? && c.workspaceId !in t2.workspaces && c.workspaceId !in t2.audits
    requires forall k | k in t2.members :: k.workspace != c.workspaceId
    ensures Then(Then(AddWorkspace(t2, c), s => AddOwner(s, c)), s => AddAudit(s, c)) == Some(t5)
    ensures Schema(t5) && AuthorizedOf(t5, c.person).Some?
    ensures t5 == t2.(workspaces := t5.workspaces, personal := t5.personal, members := t5.members, audits := t5.audits)
  {
    var t3, w := PreparedHome(t2, c);
    WorkspaceKeeps(t2, c);
    var t4 := PreparedOwner(t3, c, w);
    MembersKeep(t3, c);
    MembersKeep(t4, c);
    t5 := AddAudit(t4, c).value;
    AuthorizedSame(t4, t5, c.person);
  }

  // What the first five statements leave of a person who may be served.
  lemma Prepared(t: Tables, c: Call) returns (t5: Tables)
    requires Schema(t) && FreshIds(t, c) && AssertAvailable(t, c.person).None?
    ensures Batch(t, c) == Then(AddOperation(t5, c), s => AddSignup(s, c))
    ensures Schema(t5) && t5.operations == t.operations && t5.first == t.first && t5.signups == t.signups
    ensures c.person in t5.identities && IdentityOf(t5, c.person) == Some(t5.identities[c.person].id)
    ensures AuthorizedOf(t5, c.person).Some?
    ensures t5.identities == if c.person in t.identities then t.identities
                             else t.identities[c.person := Identity(c.identityId, true, c.now)]
  {
    var t2 := PreparedIdentity(t, c);
    t5 := PreparedWorkspace(t2, c);
  }

  // With fresh ids, a batch is refused exactly when assertAvailable reports the person or the workspace and the
  // operation is new or the identity itself disabled; an operation already recorded for an active identity never
  // aborts it.
  lemma RefusedExactlyWhenDenied(t: Tables, c: Call)
    requires Schema(t) && FreshIds(t, c)
    ensures Batch(t, c).None? <==> AssertAvailable(t, c.person).Some? && (NewOperation(t, c) || Disabled(t, c.person))
  {
    if AssertAvailable(t, c.person).None? {
      var t5 := Prepared(t, c);
    } else {
      Refused(t, c);
    }
  }

  lemma Refused(t: Tables, c: Call)
    requires Schema(t) && FreshIds(t, c) && AssertAvailable(t, c.person).Some?
    ensures Batch(t, c).None? <==> NewOperation(t, c) || Disabled(t, c.person)
    ensures Batch(t, c).Some? ==> var n := Batch(t, c).value; n == t.(profiles := n.profiles, signups := n.signups)
    ensures Batch(t, c).Some? && t.identities[c.person].id in t.signups ==> Batch(t, c).value.signups == t.signups
  {
    var t2 := AddProfile(t, c).value;
    assert AddIdentity(t, c) == Some(t);
    assert AddWorkspace(t2, c) == Some(t2);
    assert AddOwner(t2, c) == Some(t2) && AddAudit(t2, c) == Some(t2);
    assert AuthorizedOf(t2, c.person).None?;
  }

  // The first bootstrap of a person makes everything once: workspace, operation and signup event.
  lemma FirstBootstrap(t: Tables, c: Call) returns (n: Tables)
    requires Schema(t) && FreshIds(t, c) && NewPerson(t, c)
    ensures Batch(t, c) == Some(n) && c.person in n.identities
    ensures n.identities[c.person].id == c.identityId && n.first == t.first[c.identityId := c.operation]
    ensures c.identityId in n.signups && n.signups[c.identityId].operation == c.operation
    ensures c.identityId in n.personal && ReadBack(n, c.person, c.operation) == Some(Ready(n.personal[c.identityId], true))
  {
    var t5 := Prepared(t, c);
    var w, t6 := FirstOperation(t5, c);
    n := FirstSignup(t6, c, w);
    OperationKeeps(t5, c);
    SignupKeeps(t6, c);
    AuthorizedSame(t5, n, c.person);
    AuthorizedIsPersonal(n, c.person);
  }

  // A new identity's operation is the one that created it.
  lemma FirstOperation(t5: Tables, c: Call) returns (w: string, t6: Tables)
    requires c.person in t5.identities && t5.identities[c.person] == Identity(c.identityId, true, c.now)
    requires AuthorizedOf(t5, c.person).Some? && c.identityId !in t5.first && OperationKey(c.identityId, c.operation) !in t5.operations
    ensures AuthorizedOf(t5, c.person) == Some(w) && AddOperation(t5, c) == Some(t6)
    ensures t6 == t5.(operations := t5.operations[OperationKey(c.identityId, c.operation) := Operation(w, true, c.now)],
                      first := t5.first[c.identityId := c.operation])
  {
    w, t6 := AuthorizedOf(t5, c.person).value, AddOperation(t5, c).value;
  }

  lemma FirstSignup(t6: Tables, c: Call, w: string) returns (n: Tables)
    requires IdentityOf(t6, c.person) == Some(c.identityId) && c.identityId !in t6.signups
    requires var key := OperationKey(c.identityId, c.operation); key in t6.operations && t6.operations[key] == Operation(w, true, c.now)
    ensures AddSignup(t6, c) == Some(n) && n == t6.(signups := t6.signups[c.identityId := Signup(c.operation, w, c.now)])
  {
    n := AddSignup(t6, c).value;
  }

  lemma AuthorizedIsPersonal(t: Tables, p: Person)
    requires AuthorizedOf(t, p).Some?
    ensures IdentityOf(t, p).Some? && IdentityOf(t, p).value in t.personal
    ensures AuthorizedOf(t, p) == Some(t.personal[IdentityOf(t, p).value])
  {
  }

  // A person who was there before gets no second identity, first operation or signup event.
  lemma LaterBootstrap(t: Tables, c: Call, n: Tables)
    requires Schema(t) && FreshIds(t, c) && c.person in t.identities && Batch(t, c) == Some(n)
    requires t.identities[c.person].id in t.first ==> t.identities[c.person].id in t.signups
    ensures n.identities == t.identities && n.first == t.first && n.signups == t.signups
  {
    if AssertAvailable(t, c.person).None? {
      var t5 := Prepared(t, c);
      LaterOperation(t, t5, c);
    } else {
      Refused(t, c);
      LaterSignup(t, c);
    }
  }

  lemma LaterOperation(t: Tables, t5: Tables, c: Call)
    requires FreshIds(t, c) && c.person in t.identities && Schema(t5) && t5.identities == t.identities
    requires t5.first == t.first && t5.signups == t.signups && AddOperation(t5, c).Some?
    requires t.identities[c.person].id in t.first ==> t.identities[c.person].id in t.signups
    ensures var t6 := AddOperation(t5, c).value;
            t6.identities == t.identities && t6.first == t.first && t6.signups == t.signups && AddSignup(t6, c) == Some(t6)
  {
    OperationKeeps(t5, c);
    LaterSignup(AddOperation(t5, c).value, c);
  }

  lemma LaterSignup(t: Tables, c: Call)
    requires Schema(t) && c.person in t.identities && (t.identities[c.person].id in t.first ==> t.identities[c.person].id in t.signups)
    ensures AddSignup(t, c) == Some(t)
  {
    var k := OperationKey(t.identities[c.person].id, c.operation);
    if k in t.operations && t.operations[k].created { assert k.id in t.first; }
  }

  // ---------- runs ----------

  // Anything else may change statuses and add rows within the constraints.
  ghost predicate Outside(t: Tables, n: Tables) {
    Schema(n) && Stable(t, n) && n.operations == t.operations && n.first == t.first && n.signups == t.signups
  }

  datatype Reply = Reply(person: Person, operation: string, ready: Ready)

  datatype World = World(tables: Tables, replies: seq<Reply>, born: set<string>)

  datatype Event = Run(call: Call) | Read(person: Person, operation: string) | Change(tables: Tables)

  ghost predicate Possible(w: World, e: Event) {
    match e
    case Run(c) => FreshIds(w.tables, c)
    case Read(_, _) => true
    case Change(n) => Outside(w.tables, n)
  }

  function Apply(w: World, e: Event): World {
    match e
    case Run(c) =>
      var n := Batch(w.tables, c);
      if n.None? then w
      else World(n.value, w.replies, if NewPerson(w.tables, c) then w.born + {c.identityId} else w.born)
    case Read(p, o) =>
      var r := ReadBack(w.tables, p, o);
      if r.None? then w else w.(replies := w.replies + [Reply(p, o, r.value)])
    case Change(n) => w.(tables := n)
  }

  ghost predicate Feasible(w: World, es: seq<Event>)
    decreases |es|
  {
    es == [] || (Possible(w, es[0]) && Feasible(Apply(w, es[0]), es[1..]))
  }

  function After(w: World, es: seq<Event>): World
    decreases |es|
  {
    if es == [] then w else After(Apply(w, es[0]), es[1..])
  }

  ghost predicate Recorded(t: Tables, r: Reply) {
    && r.person in t.identities
    && var k := OperationKey(t.identities[r.person].id, r.operation);
       k in t.operations && r.ready == Ready(t.operations[k].workspace, t.operations[k].created)
  }

  ghost predicate Inv(w: World) {
    && Schema(w.tables) && Complete(w.tables, w.born)
    && (forall i | 0 <= i < |w.replies| :: Recorded(w.tables, w.replies[i]))
  }

  lemma RecordedStays(t: Tables, n: Tables, r: Reply)
    requires Recorded(t, r) && Stable(t, n)
    ensures Recorded(n, r)
  {
  }

  lemma CallKeeps(w: World, c: Call)
    requires Schema(w.tables) && Complete(w.tables, w.born) && FreshIds(w.tables, c)
    ensures var n := Apply(w, Run(c));
            Schema(n.tables) && Complete(n.tables, n.born) && Stable(w.tables, n.tables) && w.born <= n.born && n.replies == w.replies
  {
    assert Stable(w.tables, w.tables);
    BatchKeeps(w.tables, c);
    if NewPerson(w.tables, c) { var first := FirstBootstrap(w.tables, c); }
  }

  lemma StepKeeps(w: World, e: Event)
    requires Inv(w) && Possible(w, e)
    ensures Inv(Apply(w, e)) && Stable(w.tables, Apply(w, e).tables) && w.born <= Apply(w, e).born && w.replies <= Apply(w, e).replies
  {
    var n := Apply(w, e);
    if e.Run? { CallKeeps(w, e.call); }
    assert Stable(w.tables, n.tables);
    forall i | 0 <= i < |w.replies| ensures Recorded(n.tables, w.replies[i]) {
      RecordedStays(w.tables, n.tables, w.replies[i]);
    }
  }

  lemma {:induction false} RunKeeps(w: World, es: seq<Event>)
    requires Inv(w) && Feasible(w, es)
    ensures Inv(After(w, es)) && Stable(w.tables, After(w, es).tables)
    decreases |es|
  {
    if es == [] {
      assert Stable(w.tables, w.tables);
    } else {
      StepKeeps(w, es[0]);
      RunKeeps(Apply(w, es[0]), es[1..]);
      StableStays(w.tables, Apply(w, es[0]).tables, After(w, es).tables);
    }
  }

  predicate Init(w: World) {
    w.tables == Tables(map[], {}, map[], map[], map[], {}, map[], map[], map[]) && w.replies == [] && w.born == {}
  }

  // Two personal workspaces of one creator.
  predicate PersonalFor(t: Tables, v: string, u: string) {
    v in t.workspaces && u in t.workspaces && t.workspaces[v].personal && t.workspaces[u].personal
    && t.workspaces[v].creator == t.workspaces[u].creator
  }

  // Over any run: one personal workspace for a creator, one operation marked as creating an identity, the signup
  // event only with it; and an identity that a batch created has both.
  lemma {:induction false} EachThingOnce(w: World, es: seq<Event>, v: string, u: string, a: OperationKey, b: OperationKey)
    requires Init(w) && Feasible(w, es)
    ensures var t := After(w, es).tables;
            && (PersonalFor(t, v, u) ==> v == u)
            && (a in t.operations && b in t.operations && a.id == b.id && t.operations[a].created && t.operations[b].created ==> a == b)
            && (a.id in t.signups ==> a.id in t.first && t.signups[a.id].operation == t.first[a.id])
            && (a.id in After(w, es).born ==> a.id in t.first && a.id in t.signups)
  {
    RunKeeps(w, es);
  }

  // All answers to one person's operation are the same, however often it is sent and whatever happens in between.
  lemma {:induction false} ReplaysAgree(w: World, es: seq<Event>, i: nat, j: nat)
    requires Init(w) && Feasible(w, es) && i < |After(w, es).replies| && j < |After(w, es).replies|
    requires After(w, es).replies[i].person == After(w, es).replies[j].person
    requires After(w, es).replies[i].operation == After(w, es).replies[j].operation
    ensures After(w, es).replies[i].ready == After(w, es).replies[j].ready
  {
    RunKeeps(w, es);
    var n := After(w, es);
    assert Recorded(n.tables, n.replies[i]) && Recorded(n.tables, n.replies[j]);
  }
}
