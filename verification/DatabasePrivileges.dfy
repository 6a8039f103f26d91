/** Reconciling who owns and who may use the application's database objects, statement by
    statement, and what verification then finds. */
module DatabasePrivileges {
  import opened Options

  type Role = string

  datatype Kind = Table | View | MaterializedView | Sequence | OtherKind

  /** What a privilege can be granted on; `Future` stands for the default privileges of
      the schema owner on tables or sequences yet to be created. */
  datatype Obj =
    | Database
    | Schema(name: string)
    | Relation(schema: string, name: string, kind: Kind)
    | Future(schema: string, sequences: bool)

  datatype Privilege =
    | Select | Insert | Update | Delete | Truncate | References | Trigger
    | Usage | Create | Connect | Temporary
  datatype Grantee = Public | To(role: Role)
  datatype Grant = Grant(to: Grantee, on: Obj, privilege: Privilege)
  datatype Membership = Membership(group: Role, member: Role)

  const SCHEMAS: seq<string> :=
    ["identity", "kyc", "ledger", "cards", "operations", "origination", "audit", "admin", "catalog",
     "ref_data", "merchants", "voice_support_sessions"]
  const RESET_SCHEMAS: seq<string> :=
    ["identity", "kyc", "ledger", "cards", "operations", "origination", "audit", "catalog", "ref_data", "merchants"]
  const CDC_SCHEMAS: seq<string> :=
    ["catalog", "cards", "origination", "identity", "kyc", "ledger", "merchants", "operations"]

  const OWNER: Role := "banking_schema_owner"
  const BANKING_RW: Role := "banking_app_rw"
  const KYC_RW: Role := "kyc_app_rw"
  const LEDGER_RW: Role := "ledger_app_rw"
  const VOICE_RW: Role := "voice_app_rw"
  const DATA_GENERATOR_RW: Role := "data_generator_scheduler_rw"
  const RESET_RW: Role := "banking_reset_rw"
  const SUPPORT_RW: Role := "banking_support_rw"
  const VIEWER_RO: Role := "banking_viewer_ro"
  const CDC_RO: Role := "banking_cdc_ro"
  const AUDIT_RELAY: Role := "audit_outbox_relay"

  const GROUP_ROLES: seq<Role> :=
    [OWNER, BANKING_RW, KYC_RW, LEDGER_RW, VOICE_RW, DATA_GENERATOR_RW, RESET_RW, SUPPORT_RW, VIEWER_RO, CDC_RO,
     AUDIT_RELAY]

  const RW_ACCESS: seq<(Role, seq<string>)> :=
    [(BANKING_RW, ["identity", "kyc", "ledger", "cards", "operations", "origination", "audit", "admin", "catalog",
                   "ref_data", "merchants", "voice_support_sessions"]),
     (KYC_RW, ["kyc", "identity", "ref_data", "merchants"]),
     (LEDGER_RW, ["ledger", "audit", "catalog", "ref_data", "merchants"]),
     (VOICE_RW, ["voice_support_sessions"]),
     (RESET_RW, SCHEMAS),
     (SUPPORT_RW, SCHEMAS)]

  const IMMUTABLE_ROLES: seq<Role> :=
    [BANKING_RW, KYC_RW, LEDGER_RW, VOICE_RW, DATA_GENERATOR_RW, SUPPORT_RW, VIEWER_RO, CDC_RO, AUDIT_RELAY]

  const SCHEDULED_EVENTS := Relation("operations", "synthetic_scheduled_events", Table)
  const ACCOUNT_LEDGER := Relation("ledger", "account_ledger", Table)
  const POSTED_TRANSACTIONS := Relation("cards", "posted_transactions", Table)
  const AUDIT_OUTBOX := Relation("audit", "audit_outbox", Table)
  const RELAY_CHECKPOINT := Relation("audit", "outbox_relay_checkpoint", Table)

  const REVISIONS := Relation("admin", "alembic_version", Table)
  const EPOCHS := Relation("voice_support_sessions", "reset_epochs", Table)

  const IMMUTABLE_TABLES: seq<Obj> := [ACCOUNT_LEDGER, POSTED_TRANSACTIONS, AUDIT_OUTBOX]

  const READ_WRITE: set<Privilege> := {Select, Insert, Update, Delete}
  const ON_SEQUENCES: set<Privilege> := {Usage, Select, Update}
  const EVERY: set<Privilege> :=
    {Select, Insert, Update, Delete, Truncate, References, Trigger, Usage, Create, Connect, Temporary}
  const CHANGING: set<Privilege> := {Update, Delete, Truncate}

  lemma EveryPrivilege()
    ensures forall p: Privilege :: p in EVERY
  {
    forall p: Privilege ensures p in EVERY {
      assert p.Select? || p.Insert? || p.Update? || p.Delete? || p.Truncate? || p.Usage? || p.Create? || p.Connect?
          || p.References? || p.Trigger? || p.Temporary?;
    }
  }

  /** What GRANT ... ON ALL TABLES IN SCHEMA covers, with the default privileges beside it. */
  predicate TableIn(o: Obj, schema: string) {
    match o
    case Relation(s, _, kind) => s == schema && (kind == Table || kind == View || kind == MaterializedView)
    case Future(s, sequences) => s == schema && !sequences
    case _ => false
  }

  predicate SequenceIn(o: Obj, schema: string) {
    match o
    case Relation(s, _, kind) => s == schema && kind == Sequence
    case Future(s, sequences) => s == schema && sequences
    case _ => false
  }

  function SchemaOf(o: Obj): string {
    match o
    case Database => ""
    case Schema(s) => s
    case Relation(s, _, _) => s
    case Future(s, _) => s
  }

  /** What one GRANT of full access to a schema covers. */
  predicate RwOn(g: Grant, role: Role, schema: string) {
    && g.to == To(role)
    && (|| (g.on == Schema(schema) && g.privilege == Usage)
        || (TableIn(g.on, schema) && g.privilege in READ_WRITE)
        || (SequenceIn(g.on, schema) && g.privilege in ON_SEQUENCES))
  }

  predicate ReadOn(g: Grant, role: Role, schema: string) {
    && g.to == To(role)
    && ((g.on == Schema(schema) && g.privilege == Usage) || (TableIn(g.on, schema) && g.privilege == Select))
  }

  predicate TruncateOn(g: Grant, schema: string) {
    g.to == To(RESET_RW) && TableIn(g.on, schema) && g.privilege == Truncate
  }

  predicate RwAccess(role: Role, schema: string) {
    exists i :: 0 <= i < |RW_ACCESS| && RW_ACCESS[i].0 == role && schema in RW_ACCESS[i].1
  }

  /** The grants that name one role and one object. */
  predicate Single(g: Grant) {
    || (g.to == To(DATA_GENERATOR_RW) && g.on == Schema("operations") && g.privilege == Usage)
    || (g.to == To(DATA_GENERATOR_RW) && (g.on == SCHEDULED_EVENTS || g.on == Future("operations", false))
        && g.privilege in READ_WRITE)
    || (g.to == To(VOICE_RW) && g.on == Schema("voice_support_sessions") && g.privilege == Create)
    || (g.to == To(AUDIT_RELAY) && g.on == Schema("audit") && g.privilege == Usage)
    || (g.to == To(AUDIT_RELAY) && g.on == AUDIT_OUTBOX && g.privilege == Select)
    || (g.to == To(AUDIT_RELAY) && g.on == RELAY_CHECKPOINT && g.privilege in {Select, Insert, Update})
  }

  /** Everything reconciliation grants, if the object is there. */
  predicate Granted(g: Grant) {
    var schema := SchemaOf(g.on);
    || (g.to.To? && g.to.role in GROUP_ROLES && g.on == Database && g.privilege == Connect)
    || (g.to.To? && RwAccess(g.to.role, schema) && RwOn(g, g.to.role, schema))
    || (schema in SCHEMAS && TruncateOn(g, schema))
    || (schema in RESET_SCHEMAS && ReadOn(g, VIEWER_RO, schema))
    || (schema in CDC_SCHEMAS && ReadOn(g, CDC_RO, schema))
    || Single(g)
  }

  /** Everything it then takes away. */
  predicate Revoked(g: Grant) {
    || (g.on in IMMUTABLE_TABLES && g.privilege in CHANGING
        && (g.to == Public || (g.to.To? && g.to.role in IMMUTABLE_ROLES)))
    || (g.on == AUDIT_OUTBOX && g.privilege in CHANGING && g.to == To(RESET_RW))
    || (g.on == RELAY_CHECKPOINT && g.privilege in {Delete, Truncate} && g.to == To(RESET_RW))
  }

  // -------------------------------------------------------- membership closure

  /** `path` leads from a role to a group it belongs to, directly or through others. */
  ghost predicate IsPath(memberships: set<Membership>, path: seq<Role>, role: Role, group: Role) {
    && 2 <= |path| && path[0] == role && path[|path| - 1] == group
    && forall i :: 0 <= i < |path| - 1 ==> Membership(path[i + 1], path[i]) in memberships
  }

  ghost predicate BelongsTo(memberships: set<Membership>, role: Role, group: Role) {
    exists path :: IsPath(memberships, path, role, group)
  }

  /** May act as `group`: it is that role or belongs to it. */
  ghost predicate ActsAs(memberships: set<Membership>, role: Role, group: Role) {
    role == group || BelongsTo(memberships, role, group)
  }

  lemma DirectBelongs(memberships: set<Membership>, role: Role, group: Role)
    requires Membership(group, role) in memberships
    ensures BelongsTo(memberships, role, group)
  {
    assert IsPath(memberships, [role, group], role, group);
  }

  lemma MoreMemberships(m: set<Membership>, m': set<Membership>, role: Role, group: Role)
    requires m <= m' && BelongsTo(m, role, group)
    ensures BelongsTo(m', role, group)
  {
    var path :| IsPath(m, path, role, group);
    assert IsPath(m', path, role, group);
  }

  /** Giving the actor more groups lets nobody new belong to the actor. */
  lemma {:induction false} ActorsGroupsDoNotMatter(m: set<Membership>, m': set<Membership>, actor: Role,
                                                   path: seq<Role>, role: Role)
    requires m <= m' && (forall e <- m' :: e in m || e.member == actor)
    requires IsPath(m', path, role, actor) && role != actor
    ensures BelongsTo(m, role, actor)
    decreases |path|
  {
    assert Membership(path[1], path[0]) in m;
    if path[1] == actor {
      DirectBelongs(m, role, actor);
    } else {
      assert IsPath(m', path[1..], path[1], actor) by {
        forall i | 0 <= i < |path[1..]| - 1 ensures Membership(path[1..][i + 1], path[1..][i]) in m' {
          assert path[1..][i + 1] == path[i + 2] && path[1..][i] == path[i + 1];
        }
      }
      ActorsGroupsDoNotMatter(m, m', actor, path[1..], path[1]);
      var rest :| IsPath(m, rest, path[1], actor);
      assert IsPath(m, [role] + rest, role, actor);
    }
  }

  // ---------------------------------------------------------------- ownership

  /** The objects whose owners reconciliation looks at and changes. */
  predicate Managed(o: Obj) {
    match o
    case Schema(s) => s in SCHEMAS
    case Relation(s, _, kind) => s in SCHEMAS && kind != OtherKind
    case _ => false
  }

  /** The owners the actor has to act as: neither the target nor the actor. */
  function ForeignOwners(owners: map<Obj, Role>, actor: Role): set<Role> {
    set o | o in owners && Managed(o) && owners[o] != OWNER && owners[o] != actor :: owners[o]
  }

  function Memberships(groups: set<Role>, member: Role): set<Membership> {
    set r | r in groups :: Membership(r, member)
  }

  /** What the server lets the actor do besides what it owns: grant membership in roles,
      make roles replicate, publish all tables, and create logical replication slots. */
  datatype Rights = Rights(grantable: set<Role>, replication: bool, publication: bool, slots: bool)

  /** The actor can be made to act as `r`: it may grant the membership, and no circle results. */
  ghost predicate Assumable(memberships: set<Membership>, r: Role, actor: Role, known: set<Role>, rights: Rights) {
    r in known && (Membership(r, actor) in memberships || (r in rights.grantable && !BelongsTo(memberships, r, actor)))
  }

  lemma AssumableMeans(memberships: set<Membership>, r: Role, actor: Role, known: set<Role>, rights: Rights)
    ensures Assumable(memberships, r, actor, known, rights) <==>
              r in known && (Membership(r, actor) in memberships
                             || (r in rights.grantable && !BelongsTo(memberships, r, actor)))
  {
  }

  /** The memberships while ownership is transferred. */
  function Assumed(owners: map<Obj, Role>, memberships: set<Membership>, actor: Role): set<Membership> {
    memberships + Memberships(ForeignOwners(owners, actor), actor)
  }

  predicate AllOwned(owners: map<Obj, Role>, schemas: bool) {
    forall o <- owners :: Managed(o) && o.Schema? == schemas ==> owners[o] == OWNER
  }

  /** Exactly when `actor` can reconcile ownership: the schemas are there; every foreign
      owner is known and can be granted to the actor; the actor then acts as the target, if
      there is any relation or any schema to change hands; and for a schema to change hands
      it may create schemas in the database. */
  ghost predicate Transferable(owners: map<Obj, Role>, grants: set<Grant>, memberships: set<Membership>, actor: Role,
                               known: set<Role>, rights: Rights) {
    var assumed := Assumed(owners, memberships, actor);
    && (forall s <- SCHEMAS :: Schema(s) in owners)
    && (forall r <- ForeignOwners(owners, actor) :: Assumable(memberships, r, actor, known, rights))
    && ((exists o <- owners :: Managed(o) && o.Relation?) ==> ActsAs(assumed, actor, OWNER))
    && (AllOwned(owners, true)
        || (ActsAs(assumed, actor, OWNER) && HasPrivilege(assumed, owners, grants, actor, Database, Create)))
  }

  /** All managed objects in the hands of the target owner. */
  function Transferred(owners: map<Obj, Role>): map<Obj, Role> {
    map o | o in owners :: if Managed(o) then OWNER else owners[o]
  }

  /** A new owner takes over what its predecessor was granted on the object. */
  function Inherited(owners: map<Obj, Role>, g: Grant): Grant {
    if g.on in owners && Managed(g.on) && g.to == To(owners[g.on]) then Grant(To(OWNER), g.on, g.privilege) else g
  }

  function Moved(owners: map<Obj, Role>, grants: set<Grant>): set<Grant> {
    set g | g in grants :: Inherited(owners, g)
  }

  lemma OneMoreStep(m: set<Membership>, role: Role, mid: Role, group: Role)
    requires BelongsTo(m, role, mid) && Membership(group, mid) in m
    ensures BelongsTo(m, role, group)
  {
    var path :| IsPath(m, path, role, mid);
    assert IsPath(m, path + [group], role, group);
  }

  /** A set that holds a role's groups and is closed holds all it belongs to. */
  lemma {:induction false} ClosedUnderPaths(m: set<Membership>, reached: set<Role>, path: seq<Role>, role: Role,
                                            group: Role)
    requires IsPath(m, path, role, group)
    requires forall e <- m :: e.member == role || e.member in reached ==> e.group in reached
    ensures group in reached
    decreases |path|
  {
    var n := |path| - 1;
    assert Membership(path[n], path[n - 1]) in m;
    if n > 1 {
      ClosedUnderPaths(m, reached, path[..n], role, path[n - 1]);
    }
  }

  lemma SmallerByMore(all: set<Role>, reached: set<Role>, more: set<Role>)
    requires reached <= all && more <= all && reached !! more
    ensures |reached| <= |all| && |reached + more| == |reached| + |more| <= |all|
  {
    SubsetSize(reached + more, all);
  }

  lemma {:induction false} SubsetSize(a: set<Role>, b: set<Role>)
    requires a <= b
    ensures |a| <= |b|
  {
    if r :| r in a {
      SubsetSize(a - {r}, b - {r});
    }
  }

  lemma SameCircles(m: set<Membership>, m': set<Membership>, actor: Role, owner: Role)
    requires m <= m' && (forall e <- m' :: e in m || e.member == actor) && owner != actor
    ensures BelongsTo(m', owner, actor) <==> BelongsTo(m, owner, actor)
  {
    if BelongsTo(m, owner, actor) {
      MoreMemberships(m, m', owner, actor);
    } else if BelongsTo(m', owner, actor) {
      var path :| IsPath(m', path, owner, actor);
      ActorsGroupsDoNotMatter(m, m', actor, path, owner);
    }
  }

  /** The objects of `done` have changed hands, and their grants with them. */
  ghost predicate Partly(before: map<Obj, Role>, grants: set<Grant>, now: map<Obj, Role>, grants': set<Grant>,
                         done: set<Obj>) {
    && now == (map o | o in before :: if o in done then OWNER else before[o])
    && grants' == set g | g in grants :: if g.on in done then Inherited(before, g) else g
  }

  /** ALTER ... OWNER TO: a relation only by who acts as its present and as its new owner,
      even if they are the same; a schema by anybody if they are the same, or else by who
      acts as both and may create schemas. */
  ghost predicate MayAlter(owners: map<Obj, Role>, grants: set<Grant>, memberships: set<Membership>, actor: Role,
                           o: Obj) {
    && o in owners
    && (|| (o.Schema? && owners[o] == OWNER)
        || (&& ActsAs(memberships, actor, owners[o]) && ActsAs(memberships, actor, OWNER)
            && (o.Schema? ==> HasPrivilege(memberships, owners, grants, actor, Database, Create))))
  }

  /** Once the foreign owners are assumed, the transfer is possible exactly when every
      statement of it is. */
  lemma TransferableMeansEachMay(owners: map<Obj, Role>, grants: set<Grant>, memberships: set<Membership>, actor: Role,
                                 known: set<Role>, rights: Rights)
    requires forall r <- ForeignOwners(owners, actor) :: Assumable(memberships, r, actor, known, rights)
    ensures var assumed := Assumed(owners, memberships, actor);
      Transferable(owners, grants, memberships, actor, known, rights) <==>
        && (forall s <- SCHEMAS :: Schema(s) in owners)
        && (forall o <- owners :: Managed(o) ==> MayAlter(owners, grants, assumed, actor, o))
  {
    hide HasPrivilege;
    var assumed := Assumed(owners, memberships, actor);
    forall o <- owners | Managed(o) && owners[o] != OWNER ensures ActsAs(assumed, actor, owners[o]) {
      if owners[o] != actor {
        assert Membership(owners[o], actor) in assumed;
        DirectBelongs(assumed, actor, owners[o]);
      }
    }
    forall o <- owners | Managed(o) && owners[o] == OWNER
      ensures MayAlter(owners, grants, assumed, actor, o) <==> o.Schema? || ActsAs(assumed, actor, OWNER)
    {
    }
  }

  // ------------------------------------------------------- effect of all grants

  const FUTURES: set<Obj> := set s, b | s in SCHEMAS && b in {false, true} :: Future(s, b)

  /** All schemas, tables and roles the statements name are there. */
  predicate Complete(owners: map<Obj, Role>, roles: set<Role>) {
    && (forall s <- SCHEMAS :: Schema(s) in owners)
    && (forall o <- [SCHEDULED_EVENTS, AUDIT_OUTBOX, RELAY_CHECKPOINT] + IMMUTABLE_TABLES :: o in owners)
    && (forall r <- GROUP_ROLES :: r in roles)
  }

  /** Full access granted by the first `i` rows of the access table. */
  predicate RwUpTo(g: Grant, i: nat)
    requires i <= |RW_ACCESS|
  {
    g.to.To? && RwOn(g, g.to.role, SchemaOf(g.on))
    && exists k :: 0 <= k < i && RW_ACCESS[k].0 == g.to.role && SchemaOf(g.on) in RW_ACCESS[k].1
  }

  /** All grants, then all revocations; other grants stay. */
  ghost predicate Reconciled(before: set<Grant>, objects: set<Obj>, after: set<Grant>) {
    forall g :: g in after <==> (g in before || (g.on in objects && Granted(g))) && !Revoked(g)
  }

  ghost predicate OwnsDatabase(memberships: set<Membership>, owners: map<Obj, Role>, actor: Role) {
    Database in owners && ActsAs(memberships, actor, owners[Database])
  }

  /** A GRANT on an object by who does not own it grants nothing: with a warning if the
      actor has any privilege on it, and otherwise it fails. */
  ghost predicate MayName(memberships: set<Membership>, owners: map<Obj, Role>, grants: set<Grant>, actor: Role,
                          o: Obj) {
    exists p: Privilege :: HasPrivilege(memberships, owners, grants, actor, o, p)
  }

  /** What the grants of `actor` reach: the existing objects, the schema owner's future
      ones, and the database if the actor owns it. */
  ghost function ObjectsOf(owners: map<Obj, Role>, memberships: set<Membership>, actor: Role): set<Obj> {
    owners.Keys - {Database} + FUTURES + if OwnsDatabase(memberships, owners, actor) then {Database} else {}
  }

  /** Which principals and memberships there should be, who replicates, if anybody, and which
      revision of the schema is expected, if any. */
  datatype Config = Config(principals: set<Role>, members: set<Membership>, cdcUser: Option<Role>, revision: string)
  {
    function Known(): set<Role> { principals + set r | r in GROUP_ROLES }
  }

  /** The rows of the database the statements read and change. */
  datatype Db = Db(
    roles: set<Role>, memberships: set<Membership>, owners: map<Obj, Role>, grants: set<Grant>,
    replicating: set<Role>, published: bool, slot: bool, revision: string, epoch: bool)

  ghost predicate MayReplicate(config: Config, roles: set<Role>, rights: Rights, published: bool) {
    config.cdcUser.Some? ==>
      config.cdcUser.value in roles && rights.replication && (published || rights.publication)
  }

  /** Exactly when `actor` can reconcile: everything named is there; it acts as the schema
      owner by itself; foreign owners are known and can be granted to it; it may create
      schemas if one changes hands; it has some privilege on the database; and it may set
      up replication if that is asked for. */
  ghost predicate Reconcilable(db: Db, actor: Role, config: Config, rights: Rights) {
    && Complete(db.owners, db.roles)
    && ActsAs(db.memberships, actor, OWNER)
    && (forall r <- ForeignOwners(db.owners, actor) :: Assumable(db.memberships, r, actor, config.Known(), rights))
    && (AllOwned(db.owners, true)
        || HasPrivilege(Assumed(db.owners, db.memberships, actor), db.owners, db.grants, actor, Database, Create))
    && MayName(db.memberships, db.owners, db.grants, actor, Database)
    && MayReplicate(config, db.roles, rights, db.published)
  }

  /** What a reconciliation by `actor` that goes through leaves. */
  ghost predicate Leaves(db: Db, actor: Role, config: Config, db': Db) {
    && db'.roles == db.roles && db'.memberships == db.memberships
    && db'.owners == Transferred(db.owners)
    && Reconciled(Moved(db.owners, db.grants), ObjectsOf(db'.owners, db.memberships, actor), db'.grants)
    && db'.replicating == db.replicating + (if config.cdcUser.Some? then {config.cdcUser.value} else {})
    && db'.published == (db.published || config.cdcUser.Some?)
    && db'.slot == db.slot && db'.revision == db.revision && db'.epoch == db.epoch
  }

  // -------------------------------------------------------- what verify looks at

  /** has_table_privilege and has_schema_privilege: through the role itself or a group it
      belongs to, by ownership or by grant, or through PUBLIC. */
  ghost predicate HasPrivilege(m: set<Membership>, owners: map<Obj, Role>, grants: set<Grant>, role: Role, o: Obj,
                               p: Privilege) {
    Grant(Public, o, p) in grants || exists q :: ActsAs(m, role, q) && Held(owners, grants, q, o, p)
  }

  predicate Held(owners: map<Obj, Role>, grants: set<Grant>, q: Role, o: Obj, p: Privilege) {
    (o in owners && owners[o] == q) || Grant(To(q), o, p) in grants
  }

  ghost predicate TooBroad(m: set<Membership>, owners: map<Obj, Role>, grants: set<Grant>, role: Role, table: Obj) {
    exists p <- CHANGING :: HasPrivilege(m, owners, grants, role, table, p)
  }

  datatype Finding =
    | MissingRole(missing: Role)
    | MissingMembership(absent: Membership)
    | MissingUsage(role: Role, schema: string)
    | WrongOwner(o: Obj)
    | PermissionsTooBroad(role: Role, table: Obj)
    | NoReplication(user: Role)
    | NoPublication
    | NoSlot
    | EmptyRevision
    | WrongRevision(revision: string)
    | NoEpoch

  /** The roles, schemas and tables verification asks about are there. */
  predicate Checkable(owners: map<Obj, Role>, roles: set<Role>) {
    && (forall s <- SCHEMAS :: Schema(s) in owners) && (forall table <- IMMUTABLE_TABLES :: table in owners)
    && REVISIONS in owners && EPOCHS in owners
    && (forall r <- IMMUTABLE_ROLES + [RESET_RW] :: r in roles)
  }

  /** Exactly what verification reports of roles, memberships, usage, ownership, immutability
      and replication. */
  ghost predicate Finds(db: Db, config: Config, f: Finding) {
    match f
    case MissingRole(role) => (role in GROUP_ROLES || role in config.principals) && role !in db.roles
    case MissingMembership(m) =>
      m in config.members && m.group in db.roles && m.member in db.roles && m !in db.memberships
    case MissingUsage(role, schema) =>
      RwAccess(role, schema) && !HasPrivilege(db.memberships, db.owners, db.grants, role, Schema(schema), Usage)
    case WrongOwner(o) => o in db.owners && Managed(o) && db.owners[o] != OWNER
    case PermissionsTooBroad(role, table) =>
      && role in IMMUTABLE_ROLES && table in IMMUTABLE_TABLES
      && TooBroad(db.memberships, db.owners, db.grants, role, table)
    case NoReplication(user) => config.cdcUser == Some(user) && user in db.roles && user !in db.replicating
    case NoPublication => config.cdcUser.Some? && config.cdcUser.value in db.roles && !db.published
    case NoSlot => config.cdcUser.Some? && config.cdcUser.value in db.roles && !db.slot
    case EmptyRevision => db.revision == ""
    case WrongRevision(revision) => revision == db.revision != config.revision && config.revision != ""
    case NoEpoch => !db.epoch
  }

  datatype Result = Ok | UnexpectedOwner | DatabaseError

  class Session {
    const roles: set<Role>
    const revision: string
    const epoch: bool
    var memberships: set<Membership>
    var owners: map<Obj, Role>
    var grants: set<Grant>
    var replicating: set<Role>
    var published: bool
    var slot: bool

    constructor (db: Db)
      ensures Store() == db
    {
      roles, memberships, owners, grants := db.roles, db.memberships, db.owners, db.grants;
      replicating, published, slot := db.replicating, db.published, db.slot;
      revision, epoch := db.revision, db.epoch;
    }

    function Store(): Db
      reads this
    {
      Db(roles, memberships, owners, grants, replicating, published, slot, revision, epoch)
    }

    // ---------------------------------------------------------- the database

    /** The groups a role belongs to, by following memberships. */
    method GroupsOf(role: Role) returns (reached: set<Role>)
      ensures forall group :: group in reached <==> BelongsTo(memberships, role, group)
    {
      reached := set e | e in memberships && e.member == role :: e.group;
      var all := set e | e in memberships :: e.group;
      forall r <- reached ensures BelongsTo(memberships, role, r) {
        DirectBelongs(memberships, role, r);
      }
      var grown := true;
      while grown
        invariant reached <= all
        invariant forall r <- reached :: BelongsTo(memberships, role, r)
        invariant forall e <- memberships :: e.member == role ==> e.group in reached
        invariant !grown ==> forall e <- memberships :: e.member in reached ==> e.group in reached
        decreases |all| - |reached|, grown
      {
        var more := set e | e in memberships && e.member in reached && e.group !in reached :: e.group;
        grown := more != {};
        forall r <- more ensures BelongsTo(memberships, role, r) {
          var e :| e in memberships && e.member in reached && e.group == r;
          OneMoreStep(memberships, role, e.member, r);
        }
        SmallerByMore(all, reached, more);
        reached := reached + more;
      }
      forall group | BelongsTo(memberships, role, group) ensures group in reached {
        var path :| IsPath(memberships, path, role, group);
        ClosedUnderPaths(memberships, reached, path, role, group);
      }
    }

    method Belongs(role: Role, group: Role) returns (b: bool)
      ensures b <==> BelongsTo(memberships, role, group)
    {
      var groups := GroupsOf(role);
      return group in groups;
    }

    method Acts(role: Role, group: Role) returns (b: bool)
      ensures b <==> ActsAs(memberships, role, group)
    {
      b := Belongs(role, group);
      b := b || role == group;
    }

    /** has_..._privilege of a role. */
    method CanUse(role: Role, o: Obj, p: Privilege) returns (b: bool)
      ensures b <==> HasPrivilege(memberships, owners, grants, role, o, p)
    {
      var groups := GroupsOf(role);
      b := Grant(Public, o, p) in grants || exists q <- groups + {role} :: Held(owners, grants, q, o, p);
      assert forall q :: q in groups + {role} <==> ActsAs(memberships, role, q);
    }

    /** GRANT group TO member; the database refuses a circle. */
    method GrantRole(group: Role, member: Role, rights: Rights) returns (ok: bool)
      modifies this`memberships
      ensures ok <==> group in rights.grantable && !BelongsTo(old(memberships), group, member)
      ensures memberships == if ok then old(memberships) + {Membership(group, member)} else old(memberships)
    {
      var circular := Belongs(group, member);
      ok := group in rights.grantable && !circular;
      if ok {
        memberships := memberships + {Membership(group, member)};
      }
    }

    /** ALTER ... OWNER TO; the new owner takes over the old one's grants on the object. */
    method AlterOwner(o: Obj, actor: Role) returns (ok: bool)
      requires Managed(o)
      modifies this`owners, this`grants
      ensures ok <==> MayAlter(old(owners), old(grants), memberships, actor, o)
      ensures owners == if ok then old(owners)[o := OWNER] else old(owners)
      ensures grants == if !ok then old(grants)
                        else set g | g in old(grants) :: if g.on == o then Inherited(old(owners), g) else g
    {
      if o !in owners {
        return false;
      }
      if o.Schema? && owners[o] == OWNER {
        assert owners[o := OWNER] == owners;
        assert grants == set g | g in grants :: if g.on == o then Inherited(owners, g) else g;
        return true;
      }
      var actsAsOld := Acts(actor, owners[o]);
      var actsAsNew := Acts(actor, OWNER);
      var mayCreate := CanUse(actor, Database, Create);
      ok := actsAsOld && actsAsNew && (o.Schema? ==> mayCreate);
      if ok {
        var former := owners[o];
        grants := set g | g in grants ::
                    if g.on == o && g.to == To(former) then Grant(To(OWNER), o, g.privilege) else g;
        owners := owners[o := OWNER];
      }
    }

    // -------------------------------------------------------------- ownership

    /** Become a member of every foreign owner, remembering which memberships are new. */
    method AssumeOwners(actor: Role, known: set<Role>, rights: Rights) returns (result: Result, temporary: set<Role>)
      modifies this`memberships
      ensures result.Ok? <==> forall r <- ForeignOwners(owners, actor) ::
                Assumable(old(memberships), r, actor, known, rights)
      ensures memberships == old(memberships) + Memberships(temporary, actor)
      ensures forall r <- temporary :: Membership(r, actor) !in old(memberships)
      ensures result.Ok? ==> memberships == Assumed(owners, old(memberships), actor)
      ensures result.UnexpectedOwner? ==> exists r <- ForeignOwners(owners, actor) :: r !in known
    {
      hide BelongsTo;
      temporary := {};
      ghost var foreign := ForeignOwners(owners, actor);
      assert actor !in foreign;
      var left := ForeignOwners(owners, actor);
      hide ForeignOwners, Assumable;
      while left != {}
        invariant left <= foreign && temporary <= foreign - left
        invariant memberships == old(memberships) + Memberships(temporary, actor)
        invariant forall r <- temporary :: Membership(r, actor) !in old(memberships)
        invariant forall r <- foreign - left ::
                    Membership(r, actor) in memberships && Assumable(old(memberships), r, actor, known, rights)
        decreases |left|
      {
        var owner :| owner in left;
        AssumableMeans(old(memberships), owner, actor, known, rights);
        if owner !in known {
          assert owner in ForeignOwners(owners, actor);
          return UnexpectedOwner, temporary;
        }
        if Membership(owner, actor) !in memberships {
          SameCircles(old(memberships), memberships, actor, owner);
          var ok := GrantRole(owner, actor, rights);
          if !ok {
            assert owner in foreign && !Assumable(old(memberships), owner, actor, known, rights);
            return DatabaseError, temporary;
          }
          temporary := temporary + {owner};
        }
        left := left - {owner};
      }
      return Ok, temporary;
    }

    /** The whole transfer; a failure rolls the transaction back. */
    method ReconcileOwnership(actor: Role, known: set<Role>, rights: Rights) returns (result: Result)
      modifies this`memberships, this`owners, this`grants
      ensures memberships == old(memberships)
      ensures result.Ok? <==> Transferable(old(owners), old(grants), old(memberships), actor, known, rights)
      ensures if result.Ok? then owners == Transferred(old(owners)) && grants == Moved(old(owners), old(grants))
              else owners == old(owners) && grants == old(grants)
    {
      hide Transferable, MayAlter, ActsAs, Managed, Moved, Assumed;
      var savedMemberships, savedOwners, savedGrants := memberships, owners, grants;
      var temporary;
      result, temporary := AssumeOwners(actor, known, rights);
      if !result.Ok? {
        NotTransferable(owners, grants, savedMemberships, actor, known, rights);
        memberships := savedMemberships;
        return result;
      }
      TransferableMeansEachMay(owners, grants, savedMemberships, actor, known, rights);
      var ok := AlterOwners(actor);
      if !ok {
        memberships, owners, grants := savedMemberships, savedOwners, savedGrants;
        return DatabaseError;
      }
      memberships := memberships - Memberships(temporary, actor);
      return Ok;
    }

    /** The statements that change owners, schemas first. */
    method AlterOwners(actor: Role) returns (ok: bool)
      modifies this`owners, this`grants
      ensures ok <==> && (forall s <- SCHEMAS :: Schema(s) in old(owners))
                      && (forall o <- old(owners) :: Managed(o) ==>
                            MayAlter(old(owners), old(grants), memberships, actor, o))
      ensures ok ==> owners == Transferred(old(owners)) && grants == Moved(old(owners), old(grants))
    {
      hide MayAlter, Partly, Moved, Transferred;
      ghost var before, granted := owners, grants;
      ok := AlterSchemas(actor, SCHEMAS);
      AltersListed(before, granted, memberships, actor);
      if ok {
        ok := AlterRelations(actor, before, granted, SchemasOf(SCHEMAS));
      }
    }

    method AlterSchemas(actor: Role, schemas: seq<string>) returns (ok: bool)
      requires forall s <- schemas :: s in SCHEMAS
      modifies this`owners, this`grants
      ensures ok <==> forall o <- SchemasOf(schemas) :: MayAlter(old(owners), old(grants), memberships, actor, o)
      ensures ok ==> Partly(old(owners), old(grants), owners, grants, SchemasOf(schemas))
    {
      hide MayAlter, Partly;
      ghost var before, granted := owners, grants;
      PartlyStart(before, granted);
      assert SchemasOf(schemas[..0]) == {};
      for n := 0 to |schemas|
        invariant Partly(before, granted, owners, grants, SchemasOf(schemas[..n]))
        invariant forall o <- SchemasOf(schemas[..n]) :: Managed(o) && MayAlter(before, granted, memberships, actor, o)
      {
        var o := Schema(schemas[n]);
        assert Managed(o) && o in SchemasOf(schemas);
        PartlyStep(before, granted, owners, grants, SchemasOf(schemas[..n]), memberships, actor, o);
        ok := AlterOwner(o, actor);
        if !ok {
          return false;
        }
        assert SchemasOf(schemas[..n + 1]) == SchemasOf(schemas[..n]) + {o};
      }
      assert schemas[..|schemas|] == schemas;
      return true;
    }

    method AlterRelations(actor: Role, ghost before: map<Obj, Role>, ghost granted: set<Grant>, ghost schemas: set<Obj>)
      returns (ok: bool)
      requires Partly(before, granted, owners, grants, schemas) && schemas == SchemasOf(SCHEMAS)
      requires forall o <- schemas :: Managed(o) && MayAlter(before, granted, memberships, actor, o)
      modifies this`owners, this`grants
      ensures ok <==> forall o <- before :: Managed(o) ==> MayAlter(before, granted, memberships, actor, o)
      ensures ok ==> owners == Transferred(before) && grants == Moved(before, granted)
    {
      hide MayAlter, Partly, Moved;
      PartlyKeys(before, granted, owners, grants, schemas);
      ghost var done := schemas;
      var left := set o | o in owners && o.Relation? && Managed(o);
      while left != {}
        invariant left <= before.Keys && (forall o <- left :: o.Relation? && Managed(o))
        invariant Partly(before, granted, owners, grants, done) && schemas <= done
        invariant forall o <- done :: Managed(o) && MayAlter(before, granted, memberships, actor, o)
        invariant forall o <- before :: o.Relation? && Managed(o) ==> o in left || o in done
        decreases |left|
      {
        var o :| o in left;
        PartlyStep(before, granted, owners, grants, done, memberships, actor, o);
        ok := AlterOwner(o, actor);
        if !ok {
          return false;
        }
        done := done + {o};
        left := left - {o};
      }
      forall o <- before | Managed(o) ensures o in done {
        if o.Schema? {
          assert o.name in SCHEMAS;
        }
      }
      PartlyAll(before, granted, owners, grants, done);
      return true;
    }

    // ----------------------------------------------------------------- grants

    /** What the statements name, but for the database. */
    function Objects(): set<Obj>
      reads this`owners
    {
      owners.Keys + FUTURES
    }

    /** The actor has some privilege on the object. */
    method Names(actor: Role, o: Obj) returns (b: bool)
      ensures b <==> MayName(memberships, owners, grants, actor, o)
    {
      hide HasPrivilege;
      var left := EVERY;
      b := false;
      assert forall p: Privilege :: p in left by {
        EveryPrivilege();
      }
      while left != {} && !b
        invariant forall p: Privilege :: p in left || b || !HasPrivilege(memberships, owners, grants, actor, o, p)
        invariant b ==> exists p: Privilege :: HasPrivilege(memberships, owners, grants, actor, o, p)
        decreases |left|
      {
        var p :| p in left;
        b := CanUse(actor, o, p);
        left := left - {p};
      }
    }

    method ActsAsDatabaseOwner(actor: Role) returns (b: bool)
      ensures b <==> OwnsDatabase(memberships, owners, actor)
    {
      if Database !in owners {
        return false;
      }
      b := Acts(actor, owners[Database]);
    }

    /** GRANT privileges ON objects TO role, on objects of the schema owner. Who acts as it
        grants; anybody else grants nothing, and the statement fails unless some privilege
        on each object lets it end with a warning. Default privileges are the owner's own. */
    method GrantOn(actor: Role, role: Role, objects: set<Obj>, privileges: set<Privilege>) returns (ok: bool)
      requires forall o <- objects :: o.Future? || (o in owners && owners[o] == OWNER)
      modifies this`grants
      ensures ActsAs(memberships, actor, OWNER) ==>
                && (ok <==> role in roles)
                && (ok ==> forall g :: g in grants <==>
                      g in old(grants) || (g.to == To(role) && g.on in objects && g.privilege in privileges))
      ensures !ActsAs(memberships, actor, OWNER) ==>
                && (ok <==> role in roles && forall o <- objects ::
                      !o.Future? && MayName(memberships, owners, old(grants), actor, o))
                && grants == old(grants)
    {
      hide MayName, ActsAs;
      if role !in roles {
        return false;
      }
      var owner := Acts(actor, OWNER);
      if owner {
        grants := grants + set o, p | o in objects && p in privileges :: Grant(To(role), o, p);
        return true;
      }
      var left := objects;
      while left != {}
        invariant left <= objects && grants == old(grants)
        invariant forall o <- objects :: o in left || (!o.Future? && MayName(memberships, owners, grants, actor, o))
        decreases |left|
      {
        var o :| o in left;
        assert o in objects;
        var names := Names(actor, o);
        if o.Future? || !names {
          return false;
        }
        left := left - {o};
      }
      return true;
    }

    /** REVOKE privileges ON object FROM grantee, likewise. */
    method Revoke(actor: Role, to: Grantee, o: Obj, privileges: set<Privilege>) returns (ok: bool)
      requires o in owners && owners[o] == OWNER && (to.To? ==> to.role in roles)
      modifies this`grants
      ensures ActsAs(memberships, actor, OWNER) ==>
                ok && forall g :: g in grants <==>
                  g in old(grants) && !(g.to == to && g.on == o && g.privilege in privileges)
      ensures !ActsAs(memberships, actor, OWNER) ==>
                && (ok <==> MayName(memberships, owners, old(grants), actor, o))
                && grants == old(grants)
    {
      hide MayName, ActsAs;
      var owner := Acts(actor, OWNER);
      if owner {
        grants := grants - set p | p in privileges :: Grant(to, o, p);
        return true;
      }
      ok := Names(actor, o);
    }

    /** Without owning the database nothing is granted, and some privilege on it is needed. */
    method GrantDatabaseConnect(actor: Role, grantees: seq<Role>) returns (ok: bool)
      requires grantees != []
      modifies this`grants
      ensures ok <==> (forall r <- grantees :: r in roles) && MayName(memberships, owners, old(grants), actor, Database)
      ensures ok ==> forall g :: g in grants <==>
                g in old(grants) || (OwnsDatabase(memberships, owners, actor)
                                     && g.to.To? && g.to.role in grantees && g.on == Database && g.privilege == Connect)
    {
      hide MayName, ActsAs;
      var owner := ActsAsDatabaseOwner(actor);
      if owner {
        OwnerMayName(memberships, owners, grants, actor);
      }
      for i := 0 to |grantees|
        invariant forall r <- grantees[..i] :: r in roles
        invariant 0 < i ==> MayName(memberships, owners, old(grants), actor, Database)
        invariant !owner ==> grants == old(grants)
        invariant forall g :: g in grants <==>
          || g in old(grants)
          || (owner && g.to.To? && g.to.role in grantees[..i] && g.on == Database && g.privilege == Connect)
      {
        assert grantees[..i + 1] == grantees[..i] + [grantees[i]];
        var names := Names(actor, Database);
        if grantees[i] !in roles || (!owner && !names) {
          return false;
        }
        if owner {
          grants := grants + {Grant(To(grantees[i]), Database, Connect)};
        }
      }
      assert grantees[..|grantees|] == grantees;
      return true;
    }

    method GrantRwSchema(actor: Role, role: Role, schema: string) returns (ok: bool)
      requires Settled(owners) && schema in SCHEMAS && Schema(schema) in owners
      modifies this`grants
      ensures ok <==> ActsAs(memberships, actor, OWNER) && role in roles
      ensures ok ==> forall g :: g in grants <==> g in old(grants) || (g.on in Objects() && RwOn(g, role, schema))
    {
      hide ActsAs, MayName;
      SettledOwns(owners, schema);
      ok := GrantOn(actor, role, {Schema(schema)}, {Usage});
      if !ok {
        return false;
      }
      ok := GrantOn(actor, role, (set o | o in Objects() && TableIn(o, schema)), READ_WRITE);
      if !ok {
        return false;
      }
      ok := GrantOn(actor, role, (set o | o in Objects() && SequenceIn(o, schema)), ON_SEQUENCES);
      assert TableIn(Future(schema, false), schema) && SequenceIn(Future(schema, true), schema);
    }

    method GrantRwSchemas(actor: Role, role: Role, schemas: seq<string>) returns (ok: bool)
      requires Settled(owners) && schemas != [] && forall s <- schemas :: s in SCHEMAS && Schema(s) in owners
      modifies this`grants
      ensures ok <==> ActsAs(memberships, actor, OWNER) && role in roles
      ensures ok ==> forall g :: g in grants <==>
                g in old(grants) || (g.on in Objects() && SchemaOf(g.on) in schemas && RwOn(g, role, SchemaOf(g.on)))
    {
      hide ActsAs, Settled;
      for j := 0 to |schemas|
        invariant 0 < j ==> ActsAs(memberships, actor, OWNER) && role in roles
        invariant forall g :: g in grants <==>
          g in old(grants) || (g.on in Objects() && SchemaOf(g.on) in schemas[..j] && RwOn(g, role, SchemaOf(g.on)))
      {
        ok := GrantRwSchema(actor, role, schemas[j]);
        if !ok {
          return false;
        }
        assert schemas[..j + 1] == schemas[..j] + [schemas[j]];
      }
      assert schemas[..|schemas|] == schemas;
      return true;
    }

    method GrantReadOnly(actor: Role, role: Role, schemas: seq<string>) returns (ok: bool)
      requires Settled(owners) && schemas != [] && forall s <- schemas :: s in SCHEMAS && Schema(s) in owners
      modifies this`grants
      ensures ok <==> ActsAs(memberships, actor, OWNER) && role in roles
      ensures ok ==> forall g :: g in grants <==>
                g in old(grants) || (g.on in Objects() && SchemaOf(g.on) in schemas && ReadOn(g, role, SchemaOf(g.on)))
    {
      hide ActsAs, Settled, MayName;
      for j := 0 to |schemas|
        invariant 0 < j ==> ActsAs(memberships, actor, OWNER) && role in roles
        invariant forall g :: g in grants <==>
          g in old(grants) || (g.on in Objects() && SchemaOf(g.on) in schemas[..j] && ReadOn(g, role, SchemaOf(g.on)))
      {
        SettledOwns(owners, schemas[j]);
        ok := GrantOn(actor, role, {Schema(schemas[j])}, {Usage});
        if !ok {
          return false;
        }
        ok := GrantOn(actor, role, (set o | o in Objects() && TableIn(o, schemas[j])), {Select});
        assert TableIn(Future(schemas[j], false), schemas[j]);
        if !ok {
          return false;
        }
        assert schemas[..j + 1] == schemas[..j] + [schemas[j]];
      }
      assert schemas[..|schemas|] == schemas;
      return true;
    }

    method GrantTruncate(actor: Role, schemas: seq<string>) returns (ok: bool)
      requires Settled(owners) && RESET_RW in roles && schemas != [] && forall s <- schemas :: s in SCHEMAS
      modifies this`grants
      ensures ok <==> ActsAs(memberships, actor, OWNER)
      ensures ok ==> forall g :: g in grants <==>
                g in old(grants) || (g.on in Objects() && SchemaOf(g.on) in schemas && TruncateOn(g, SchemaOf(g.on)))
    {
      hide ActsAs, Settled, MayName, TableIn;
      for j := 0 to |schemas|
        invariant 0 < j ==> ActsAs(memberships, actor, OWNER)
        invariant forall g :: g in grants <==>
          g in old(grants) || (g.on in Objects() && SchemaOf(g.on) in schemas[..j] && TruncateOn(g, SchemaOf(g.on)))
      {
        SettledOwns(owners, schemas[j]);
        FutureIn(schemas[j]);
        ok := GrantOn(actor, RESET_RW, (set o | o in Objects() && TableIn(o, schemas[j])), {Truncate});
        if !ok {
          return false;
        }
        assert schemas[..j + 1] == schemas[..j] + [schemas[j]];
      }
      assert schemas[..|schemas|] == schemas;
      return true;
    }

    method GrantSingles(actor: Role) returns (ok: bool)
      requires Settled(owners) && Complete(owners, roles)
      modifies this`grants
      ensures ok <==> ActsAs(memberships, actor, OWNER)
      ensures ok ==> forall g :: g in grants <==> g in old(grants) || (g.on in Objects() && Single(g))
    {
      hide ActsAs, MayName;
      ok := GrantOn(actor, DATA_GENERATOR_RW, {Schema("operations")}, {Usage});
      if !ok {
        return false;
      }
      ok := GrantOn(actor, DATA_GENERATOR_RW, {SCHEDULED_EVENTS, Future("operations", false)}, READ_WRITE);
      if !ok {
        return false;
      }
      ghost var first := grants;
      ok := GrantOn(actor, VOICE_RW, {Schema("voice_support_sessions")}, {Create});
      ok := GrantOn(actor, AUDIT_RELAY, {Schema("audit")}, {Usage});
      ok := GrantOn(actor, AUDIT_RELAY, {AUDIT_OUTBOX}, {Select});
      ok := GrantOn(actor, AUDIT_RELAY, {RELAY_CHECKPOINT}, {Select, Insert, Update});
    }

    method RevokeImmutable(actor: Role, table: Obj) returns (ok: bool)
      requires ActsAs(memberships, actor, OWNER) && table in owners && owners[table] == OWNER
      requires forall r <- IMMUTABLE_ROLES :: r in roles
      modifies this`grants
      ensures ok
      ensures forall g :: g in grants <==>
                g in old(grants) && !(g.on == table && g.privilege in CHANGING
                                      && (g.to == Public || (g.to.To? && g.to.role in IMMUTABLE_ROLES)))
    {
      hide ActsAs, MayName;
      for i := 0 to |IMMUTABLE_ROLES|
        invariant forall g :: g in grants <==>
          g in old(grants) && !(g.on == table && g.privilege in CHANGING && g.to.To?
                                && g.to.role in IMMUTABLE_ROLES[..i])
      {
        assert IMMUTABLE_ROLES[i] in IMMUTABLE_ROLES;
        ok := Revoke(actor, To(IMMUTABLE_ROLES[i]), table, CHANGING);
        assert IMMUTABLE_ROLES[..i + 1] == IMMUTABLE_ROLES[..i] + [IMMUTABLE_ROLES[i]];
      }
      assert IMMUTABLE_ROLES[..|IMMUTABLE_ROLES|] == IMMUTABLE_ROLES;
      ok := Revoke(actor, Public, table, CHANGING);
    }

    /** The revocations; the grants before them went through, so the actor acts as the owner. */
    method RevokeAll(actor: Role) returns (ok: bool)
      requires Settled(owners) && Complete(owners, roles) && ActsAs(memberships, actor, OWNER)
      modifies this`grants
      ensures ok
      ensures forall g :: g in grants <==> g in old(grants) && !Revoked(g)
    {
      hide ActsAs, MayName;
      ListedRolesAreThere(owners, roles);
      for k := 0 to |IMMUTABLE_TABLES|
        invariant forall g :: g in grants <==>
          g in old(grants) && !(g.on in IMMUTABLE_TABLES[..k] && g.privilege in CHANGING
                                && (g.to == Public || (g.to.To? && g.to.role in IMMUTABLE_ROLES)))
      {
        TablesAreOwned(owners, roles, IMMUTABLE_TABLES[k]);
        ok := RevokeImmutable(actor, IMMUTABLE_TABLES[k]);
        assert IMMUTABLE_TABLES[..k + 1] == IMMUTABLE_TABLES[..k] + [IMMUTABLE_TABLES[k]];
      }
      assert IMMUTABLE_TABLES[..|IMMUTABLE_TABLES|] == IMMUTABLE_TABLES;
      TablesAreOwned(owners, roles, AUDIT_OUTBOX);
      TablesAreOwned(owners, roles, RELAY_CHECKPOINT);
      ok := Revoke(actor, To(RESET_RW), AUDIT_OUTBOX, CHANGING);
      ok := Revoke(actor, To(RESET_RW), RELAY_CHECKPOINT, {Delete, Truncate});
    }

    /** All grants, then all revocations, once the schema owner has everything. A statement
        that names a missing object or role or that the actor has no right to fails, and
        with it the transaction. */
    method ReconcileGrants(actor: Role) returns (ok: bool)
      requires Settled(owners)
      modifies this`grants
      ensures ok <==>
        && Complete(owners, roles) && ActsAs(memberships, actor, OWNER)
        && MayName(memberships, owners, old(grants), actor, Database)
      ensures if ok then Reconciled(old(grants), ObjectsOf(owners, memberships, actor), grants)
              else grants == old(grants)
    {
      hide ActsAs, MayName, OwnsDatabase, Settled;
      if !Complete(owners, roles) {
        return false;
      }
      var before := grants;
      ok := GrantDatabaseConnect(actor, GROUP_ROLES);
      if !ok {
        grants := before;
        return false;
      }
      ghost var connected := grants;
      for i := 0 to |RW_ACCESS|
        invariant 0 < i ==> ActsAs(memberships, actor, OWNER)
        invariant forall g :: g in grants <==> g in connected || (g.on in Objects() && RwUpTo(g, i))
      {
        SchemasAreThere(owners, roles, RW_ACCESS[i].1);
        ok := GrantRwSchemas(actor, RW_ACCESS[i].0, RW_ACCESS[i].1);
        if !ok {
          grants := before;
          return false;
        }
      }
      ghost var written := grants;
      ListedSchemasAreThere(owners, roles);
      ok := GrantTruncate(actor, SCHEMAS);
      ok := GrantReadOnly(actor, VIEWER_RO, RESET_SCHEMAS);
      ok := GrantReadOnly(actor, CDC_RO, CDC_SCHEMAS);
      ok := GrantSingles(actor);
      ghost var granted := grants;
      forall g ensures g in granted <==> g in before || (g.on in ObjectsOf(owners, memberships, actor) && Granted(g)) {
        AllGranted(g, owners, memberships, actor);
      }
      ok := RevokeAll(actor);
    }

    /** The replication user and the publication. */
    method ReconcileCdc(user: Role, rights: Rights) returns (ok: bool)
      modifies this`replicating, this`published
      ensures ok <==> user in roles && rights.replication && (old(published) || rights.publication)
      ensures if ok then replicating == old(replicating) + {user} && published
              else replicating == old(replicating) && published == old(published)
    {
      if user !in roles || !rights.replication {
        return false;
      }
      if !published && !rights.publication {
        return false;
      }
      replicating, published := replicating + {user}, true;
      return true;
    }

    /** One transaction: ownership, then grants, then replication if it is asked for; it
        takes effect as a whole or not at all. */
    method Reconcile(actor: Role, config: Config, rights: Rights) returns (result: Result)
      modifies this`memberships, this`owners, this`grants, this`replicating, this`published
      ensures result.Ok? <==> Reconcilable(old(Store()), actor, config, rights)
      ensures if result.Ok? then Leaves(old(Store()), actor, config, Store()) else Store() == old(Store())
    {
      hide Transferable, Reconciled, Reconcilable, Moved, Complete, ActsAs, MayName, ObjectsOf;
      var savedOwners, savedGrants := owners, grants;
      StepsMeanReconcilable(Store(), actor, config, rights);
      result := ReconcileOwnership(actor, config.Known(), rights);
      if !result.Ok? {
        return;
      }
      TransferredIsSettled(savedOwners);
      var ok := ReconcileGrants(actor);
      if ok && config.cdcUser.Some? {
        ok := ReconcileCdc(config.cdcUser.value, rights);
      }
      if !ok {
        owners, grants := savedOwners, savedGrants;
        result := DatabaseError;
      }
    }

    // ----------------------------------------------------------------- verify

    method VerifyUsage(config: Config) returns (errors: set<Finding>)
      ensures forall f :: f in errors <==> f.MissingUsage? && Finds(Store(), config, f)
    {
      hide HasPrivilege;
      errors := {};
      for i := 0 to |RW_ACCESS|
        invariant forall f :: f in errors <==>
          f.MissingUsage? && Finds(Store(), config, f)
          && exists k :: 0 <= k < i && RW_ACCESS[k].0 == f.role && f.schema in RW_ACCESS[k].1
      {
        var (role, schemas) := RW_ACCESS[i];
        ghost var before := errors;
        for j := 0 to |schemas|
          invariant forall f :: f in errors <==>
            f in before || (f.MissingUsage? && f.role == role && f.schema in schemas[..j]
                            && !HasPrivilege(memberships, owners, grants, f.role, Schema(f.schema), Usage))
        {
          var usable := CanUse(role, Schema(schemas[j]), Usage);
          assert schemas[..j + 1] == schemas[..j] + [schemas[j]];
          if !usable {
            errors := errors + {MissingUsage(role, schemas[j])};
          }
        }
        assert schemas[..|schemas|] == schemas;
      }
    }

    method VerifyImmutable(config: Config) returns (errors: set<Finding>)
      ensures forall f :: f in errors <==> f.PermissionsTooBroad? && Finds(Store(), config, f)
    {
      hide HasPrivilege;
      errors := {};
      for i := 0 to |IMMUTABLE_TABLES|
        invariant forall f :: f in errors <==>
          f.PermissionsTooBroad? && f.table in IMMUTABLE_TABLES[..i] && Finds(Store(), config, f)
      {
        var table := IMMUTABLE_TABLES[i];
        ghost var before := errors;
        for j := 0 to |IMMUTABLE_ROLES|
          invariant forall f :: f in errors <==>
            f in before || (f.PermissionsTooBroad? && f.table == table && f.role in IMMUTABLE_ROLES[..j]
                            && TooBroad(memberships, owners, grants, f.role, table))
        {
          var role := IMMUTABLE_ROLES[j];
          var canUpdate := CanUse(role, table, Update);
          var canDelete := CanUse(role, table, Delete);
          var canTruncate := CanUse(role, table, Truncate);
          assert IMMUTABLE_ROLES[..j + 1] == IMMUTABLE_ROLES[..j] + [role];
          if canUpdate || canDelete || canTruncate {
            errors := errors + {PermissionsTooBroad(role, table)};
          }
        }
        assert IMMUTABLE_ROLES[..|IMMUTABLE_ROLES|] == IMMUTABLE_ROLES;
        assert IMMUTABLE_TABLES[..i + 1] == IMMUTABLE_TABLES[..i] + [table];
      }
      assert IMMUTABLE_TABLES[..|IMMUTABLE_TABLES|] == IMMUTABLE_TABLES;
    }

    method VerifyRoles(config: Config) returns (errors: set<Finding>)
      ensures forall f :: f in errors <==> (f.MissingRole? || f.MissingMembership?) && Finds(Store(), config, f)
    {
      hide HasPrivilege, TooBroad, Managed, RwAccess;
      var missing := set r | r in config.principals + (set q | q in GROUP_ROLES) && r !in roles :: MissingRole(r);
      var absent := set m | m in config.members && m.group in roles && m.member in roles && m !in memberships
        :: MissingMembership(m);
      return missing + absent;
    }

    method VerifyCdc(config: Config) returns (errors: set<Finding>)
      ensures forall f :: f in errors <==>
                (f.NoReplication? || f.NoPublication? || f.NoSlot?) && Finds(Store(), config, f)
    {
      hide HasPrivilege, TooBroad, Managed, RwAccess;
      errors := {};
      if config.cdcUser.Some? && config.cdcUser.value in roles {
        if config.cdcUser.value !in replicating {
          errors := errors + {NoReplication(config.cdcUser.value)};
        }
        if !published {
          errors := errors + {NoPublication};
        }
        if !slot {
          errors := errors + {NoSlot};
        }
      }
    }

    method VerifyRows(config: Config) returns (errors: set<Finding>)
      ensures forall f :: f in errors <==>
                (f.EmptyRevision? || f.WrongRevision? || f.NoEpoch?) && Finds(Store(), config, f)
    {
      hide HasPrivilege, TooBroad, Managed, RwAccess;
      errors := {};
      if revision == "" {
        errors := errors + {EmptyRevision};
      }
      if config.revision != "" && revision != config.revision {
        errors := errors + {WrongRevision(revision)};
      }
      if !epoch {
        errors := errors + {NoEpoch};
      }
    }

    method VerifyOwners(config: Config) returns (errors: set<Finding>)
      ensures forall f :: f in errors <==> f.WrongOwner? && Finds(Store(), config, f)
    {
      hide HasPrivilege, TooBroad, Managed, RwAccess;
      return set o | o in owners && Managed(o) && owners[o] != OWNER :: WrongOwner(o);
    }

    /** What verification reports; it fails when a role, schema or table it asks about is missing. */
    method Verify(config: Config) returns (report: Option<set<Finding>>)
      ensures report.Some? <==> Checkable(owners, roles)
      ensures report.Some? ==> forall f :: f in report.value <==> Finds(Store(), config, f)
    {
      hide Finds, Checkable;
      if !Checkable(owners, roles) {
        return None;
      }
      var missing := VerifyRoles(config);
      var usage := VerifyUsage(config);
      var wrongOwners := VerifyOwners(config);
      var rows := VerifyRows(config);
      var immutable := VerifyImmutable(config);
      var cdc := VerifyCdc(config);
      return Some(missing + usage + wrongOwners + rows + immutable + cdc);
    }

    /** The replication slot, outside of any transaction. */
    method EnsureReplicationSlot(config: Config, rights: Rights, logical: bool) returns (ok: bool)
      modifies this`slot
      ensures ok <==> MaySlot(old(Store()), config, rights, logical)
      ensures slot == (old(slot) || (ok && config.cdcUser.Some?))
    {
      if config.cdcUser.None? {
        return true;
      }
      if !logical || (!slot && !rights.slots) {
        return false;
      }
      slot := true;
      return true;
    }

    /** The command: the transaction, the slot, and verification, which has to find nothing. */
    method ReconcileCommand(actor: Role, config: Config, rights: Rights, logical: bool) returns (ok: bool)
      modifies this
      ensures ok <==> Succeeds(old(Store()), actor, config, rights, logical)
      ensures ok ==> Leaves(old(Store()), actor, config, Store().(slot := old(slot)))
    {
      hide Reconcilable, Leaves, Finds, Checkable, Harmful, BelongsTo;
      ghost var before := Store();
      var result := Reconcile(actor, config, rights);
      if !result.Ok? {
        return false;
      }
      ghost var after := Store();
      ok := EnsureReplicationSlot(config, rights, logical);
      ghost var final := Store();
      CommandVerifies(before, actor, config, rights, logical, after, final);
      if !ok {
        return false;
      }
      var report := Verify(config);
      if report.None? {
        return false;
      }
      ok := report.value == {};
      assert ok <==> forall f :: f !in report.value;
      assert forall f :: f in report.value <==> Finds(final, config, f);
      assert ok <==> Succeeds(before, actor, config, rights, logical);
      assert Leaves(before, actor, config, final.(slot := before.slot));
    }
  }

  function SchemasOf(names: seq<string>): set<Obj> {
    set s | s in names :: Schema(s)
  }

  /** The schemas listed are there if their owners can be altered. */
  lemma AltersListed(owners: map<Obj, Role>, grants: set<Grant>, memberships: set<Membership>, actor: Role)
    ensures (forall o <- SchemasOf(SCHEMAS) :: MayAlter(owners, grants, memberships, actor, o)) ==>
              forall s <- SCHEMAS :: Schema(s) in owners
    ensures (forall s <- SCHEMAS :: Schema(s) in owners)
            && (forall o <- owners :: Managed(o) ==> MayAlter(owners, grants, memberships, actor, o)) ==>
              forall o <- SchemasOf(SCHEMAS) :: MayAlter(owners, grants, memberships, actor, o)
    ensures forall o <- SchemasOf(SCHEMAS) :: Managed(o)
  {
    hide ActsAs, HasPrivilege;
    forall s <- SCHEMAS ensures Schema(s) in SchemasOf(SCHEMAS) && Managed(Schema(s)) {
    }
  }

  lemma PartlyStart(before: map<Obj, Role>, grants: set<Grant>)
    ensures Partly(before, grants, before, grants, {})
  {
  }

  lemma PartlyKeys(before: map<Obj, Role>, grants: set<Grant>, now: map<Obj, Role>, grants': set<Grant>, done: set<Obj>)
    requires Partly(before, grants, now, grants', done)
    ensures now.Keys == before.Keys
  {
  }

  /** What is held on the database alone decides the privileges on it. */
  lemma DatabaseKept(m: set<Membership>, owners: map<Obj, Role>, grants: set<Grant>, owners': map<Obj, Role>,
                     grants': set<Grant>)
    requires Database in owners <==> Database in owners'
    requires Database in owners ==> owners[Database] == owners'[Database]
    requires forall to, p :: Grant(to, Database, p) in grants <==> Grant(to, Database, p) in grants'
    ensures forall role, p ::
              HasPrivilege(m, owners, grants, role, Database, p) <==>
                HasPrivilege(m, owners', grants', role, Database, p)
  {
    hide ActsAs;
    forall q, p ensures Held(owners, grants, q, Database, p) <==> Held(owners', grants', q, Database, p) {
    }
    hide Held;
  }

  lemma PartlyDatabase(before: map<Obj, Role>, grants: set<Grant>, now: map<Obj, Role>, grants': set<Grant>,
                       done: set<Obj>, m: set<Membership>)
    requires Partly(before, grants, now, grants', done) && forall d <- done :: Managed(d)
    ensures forall role, p ::
              HasPrivilege(m, before, grants, role, Database, p) <==> HasPrivilege(m, now, grants', role, Database, p)
  {
    forall to, p ensures Grant(to, Database, p) in grants <==> Grant(to, Database, p) in grants' {
      var g := Grant(to, Database, p);
      if g in grants {
        assert (if g.on in done then Inherited(before, g) else g) in grants';
      }
    }
    DatabaseKept(m, before, grants, now, grants');
  }

  lemma PartlyStep(before: map<Obj, Role>, grants: set<Grant>, now: map<Obj, Role>, grants': set<Grant>, done: set<Obj>,
                   memberships: set<Membership>, actor: Role, o: Obj)
    requires Partly(before, grants, now, grants', done) && Managed(o)
    requires forall d <- done :: Managed(d) && MayAlter(before, grants, memberships, actor, d)
    ensures MayAlter(now, grants', memberships, actor, o) <==> MayAlter(before, grants, memberships, actor, o)
    ensures MayAlter(before, grants, memberships, actor, o) ==> o in before
    ensures o in before ==>
              Partly(before, grants, now[o := OWNER],
                     set g | g in grants' :: (if g.on == o then Inherited(now, g) else g), done + {o})
  {
    hide ActsAs, HasPrivilege, Managed;
    PartlyDatabase(before, grants, now, grants', done, memberships);
    if o in before {
      GrantsMoveOn(before, grants, now, grants', done, o);
    }
  }

  lemma GrantsMoveOn(before: map<Obj, Role>, grants: set<Grant>, now: map<Obj, Role>, grants': set<Grant>,
                     done: set<Obj>, o: Obj)
    requires Partly(before, grants, now, grants', done) && o in before
    ensures (set g | g in grants' :: if g.on == o then Inherited(now, g) else g)
            == set g | g in grants :: if g.on in done + {o} then Inherited(before, g) else g
  {
    hide Managed;
    var left := set g | g in grants' :: if g.on == o then Inherited(now, g) else g;
    var right := set g | g in grants :: if g.on in done + {o} then Inherited(before, g) else g;
    forall g <- grants
      ensures var moved := if g.on in done then Inherited(before, g) else g;
        && moved in grants' && moved.on == g.on
        && (if moved.on == o then Inherited(now, moved) else moved)
           == (if g.on in done + {o} then Inherited(before, g) else g)
    {
    }
    forall x <- left ensures x in right {
      var g' :| g' in grants' && x == if g'.on == o then Inherited(now, g') else g';
      var g :| g in grants && g' == if g.on in done then Inherited(before, g) else g;
    }
    forall x <- right ensures x in left {
      var g :| g in grants && x == if g.on in done + {o} then Inherited(before, g) else g;
      var moved := if g.on in done then Inherited(before, g) else g;
      assert moved in grants';
    }
  }

  lemma PartlyAll(before: map<Obj, Role>, grants: set<Grant>, now: map<Obj, Role>, grants': set<Grant>, done: set<Obj>)
    requires Partly(before, grants, now, grants', done)
    requires forall o <- before :: Managed(o) ==> o in done
    requires forall o <- done :: Managed(o)
    ensures now == Transferred(before) && grants' == Moved(before, grants)
  {
    hide Managed;
    assert forall g <- grants :: (if g.on in done then Inherited(before, g) else g) == Inherited(before, g);
  }

  lemma NotTransferable(owners: map<Obj, Role>, grants: set<Grant>, memberships: set<Membership>, actor: Role,
                        known: set<Role>, rights: Rights)
    requires exists r <- ForeignOwners(owners, actor) :: !Assumable(memberships, r, actor, known, rights)
    ensures !Transferable(owners, grants, memberships, actor, known, rights)
  {
  }

  lemma SchemasAreThere(owners: map<Obj, Role>, roles: set<Role>, schemas: seq<string>)
    requires Complete(owners, roles) && exists i :: 0 <= i < |RW_ACCESS| && schemas == RW_ACCESS[i].1
    ensures schemas != [] && forall s <- schemas :: s in SCHEMAS && Schema(s) in owners
  {
    forall s <- schemas ensures s in SCHEMAS {
      var i :| 0 <= i < |RW_ACCESS| && schemas == RW_ACCESS[i].1;
    }
  }

  lemma ListedSchemasAreThere(owners: map<Obj, Role>, roles: set<Role>)
    requires Complete(owners, roles)
    ensures RESET_RW in roles
    ensures forall s <- RESET_SCHEMAS :: s in SCHEMAS && Schema(s) in owners
    ensures forall s <- CDC_SCHEMAS :: s in SCHEMAS && Schema(s) in owners
  {
  }

  lemma ListedRolesAreThere(owners: map<Obj, Role>, roles: set<Role>)
    requires Complete(owners, roles)
    ensures RESET_RW in roles && forall r <- IMMUTABLE_ROLES :: r in roles
  {
    assert RESET_RW in GROUP_ROLES;
    forall r <- IMMUTABLE_ROLES ensures r in GROUP_ROLES {
    }
  }

  lemma TablesAreOwned(owners: map<Obj, Role>, roles: set<Role>, table: Obj)
    requires Complete(owners, roles) && Settled(owners) && (table in IMMUTABLE_TABLES || table == RELAY_CHECKPOINT)
    ensures table in owners && owners[table] == OWNER
  {
    assert table in [SCHEDULED_EVENTS, AUDIT_OUTBOX, RELAY_CHECKPOINT] + IMMUTABLE_TABLES;
    assert Managed(table);
  }

  /** The schema owner has everything that is managed. */
  predicate Settled(owners: map<Obj, Role>) {
    forall o <- owners :: Managed(o) ==> owners[o] == OWNER
  }

  lemma SettledOwns(owners: map<Obj, Role>, schema: string)
    requires Settled(owners) && schema in SCHEMAS
    ensures Schema(schema) in owners ==> owners[Schema(schema)] == OWNER
    ensures forall o <- owners.Keys + FUTURES :: TableIn(o, schema) || SequenceIn(o, schema) ==>
              o.Future? || (o in owners && owners[o] == OWNER)
    ensures Future(schema, false) in FUTURES && Future(schema, true) in FUTURES
  {
    forall o <- owners | TableIn(o, schema) || SequenceIn(o, schema) ensures o.Future? || owners[o] == OWNER {
      assert o.Relation? ==> Managed(o);
    }
  }

  /** Objects of other schemas are not in this one. */
  lemma FutureIn(schema: string)
    ensures TableIn(Future(schema, false), schema) && SequenceIn(Future(schema, true), schema)
    ensures forall o, s :: TableIn(o, s) ==> s == SchemaOf(o)
  {
  }

  lemma TransferredIsSettled(owners: map<Obj, Role>)
    ensures Settled(Transferred(owners))
  {
  }

  /** The groups of statements together grant what is listed, each within its objects. */
  lemma AllGranted(g: Grant, owners: map<Obj, Role>, memberships: set<Membership>, actor: Role)
    ensures
      (|| (&& OwnsDatabase(memberships, owners, actor) && g.to.To? && g.to.role in GROUP_ROLES
           && g.on == Database && g.privilege == Connect)
       || (&& g.on in owners.Keys + FUTURES
           && (|| RwUpTo(g, |RW_ACCESS|)
               || (SchemaOf(g.on) in SCHEMAS && TruncateOn(g, SchemaOf(g.on)))
               || (SchemaOf(g.on) in RESET_SCHEMAS && ReadOn(g, VIEWER_RO, SchemaOf(g.on)))
               || (SchemaOf(g.on) in CDC_SCHEMAS && ReadOn(g, CDC_RO, SchemaOf(g.on)))
               || Single(g))))
      <==> g.on in ObjectsOf(owners, memberships, actor) && Granted(g)
  {
    hide OwnsDatabase;
  }

  /** The rights on the database outlast the transfer. */
  lemma TransferKeepsDatabase(m: set<Membership>, owners: map<Obj, Role>, grants: set<Grant>)
    ensures forall role, p ::
              HasPrivilege(m, owners, grants, role, Database, p)
              <==> HasPrivilege(m, Transferred(owners), Moved(owners, grants), role, Database, p)
  {
    forall to, p ensures Grant(to, Database, p) in grants <==> Grant(to, Database, p) in Moved(owners, grants) {
      var g := Grant(to, Database, p);
      if g in grants {
        assert Inherited(owners, g) in Moved(owners, grants);
      }
    }
    DatabaseKept(m, owners, grants, Transferred(owners), Moved(owners, grants));
  }

  lemma MoreActs(m: set<Membership>, m': set<Membership>, role: Role, group: Role)
    requires m <= m' && ActsAs(m, role, group)
    ensures ActsAs(m', role, group)
  {
    if role != group {
      MoreMemberships(m, m', role, group);
    }
  }

  /** The steps of the transaction can all be done exactly when reconciliation can. */
  lemma StepsMeanReconcilable(db: Db, actor: Role, config: Config, rights: Rights)
    ensures
      (&& Transferable(db.owners, db.grants, db.memberships, actor, config.Known(), rights)
       && Complete(Transferred(db.owners), db.roles) && ActsAs(db.memberships, actor, OWNER)
       && MayName(db.memberships, Transferred(db.owners), Moved(db.owners, db.grants), actor, Database)
       && MayReplicate(config, db.roles, rights, db.published))
      <==> Reconcilable(db, actor, config, rights)
  {
    hide HasPrivilege, ActsAs, Managed, Assumable, Moved;
    TransferKeepsDatabase(db.memberships, db.owners, db.grants);
    if ActsAs(db.memberships, actor, OWNER) {
      MoreActs(db.memberships, Assumed(db.owners, db.memberships, actor), actor, OWNER);
    }
  }

  lemma OwnerMayName(memberships: set<Membership>, owners: map<Obj, Role>, grants: set<Grant>, actor: Role)
    requires OwnsDatabase(memberships, owners, actor)
    ensures MayName(memberships, owners, grants, actor, Database)
  {
    assert Held(owners, grants, owners[Database], Database, Connect);
    assert HasPrivilege(memberships, owners, grants, actor, Database, Connect);
  }

  // ---------------------------------------------------------------- theorems

  lemma SettledTransfersNothing(owners: map<Obj, Role>, grants: set<Grant>, actor: Role)
    requires Settled(owners)
    ensures Transferred(owners) == owners && Moved(owners, grants) == grants && ForeignOwners(owners, actor) == {}
    ensures AllOwned(owners, true)
  {
    hide Managed;
    assert forall g <- grants :: Inherited(owners, g) == g;
    assert forall g <- Moved(owners, grants) :: g in grants;
  }

  lemma TransferredKeepsComplete(owners: map<Obj, Role>, roles: set<Role>)
    ensures Complete(Transferred(owners), roles) <==> Complete(owners, roles)
  {
    assert Transferred(owners).Keys == owners.Keys;
  }

  /** Who may reconcile again after one that went through: exactly who acts as the schema
      owner, has some privilege on the database and may set up what replication lacks. If
      the first actor owned the database, every member of the schema owner has the privilege. */
  lemma WhoMayReconcileAgain(db: Db, actor: Role, config: Config, rights: Rights, db': Db, other: Role, rights': Rights)
    requires Reconcilable(db, actor, config, rights) && Leaves(db, actor, config, db')
    ensures Reconcilable(db', other, config, rights') <==>
      && ActsAs(db.memberships, other, OWNER)
      && MayName(db.memberships, db'.owners, db'.grants, other, Database)
      && (config.cdcUser.Some? ==> rights'.replication)
    ensures OwnsDatabase(db.memberships, db.owners, actor) && ActsAs(db.memberships, other, OWNER) ==>
              MayName(db.memberships, db'.owners, db'.grants, other, Database)
  {
    hide ActsAs, Managed, Reconciled;
    TransferredIsSettled(db.owners);
    SettledTransfersNothing(db'.owners, db'.grants, other);
    TransferredKeepsComplete(db.owners, db.roles);
    if OwnsDatabase(db.memberships, db.owners, actor) && ActsAs(db.memberships, other, OWNER) {
      ConnectGranted(db, actor, config, rights, db', OWNER);
      assert Held(db'.owners, db'.grants, OWNER, Database, Connect);
      assert HasPrivilege(db.memberships, db'.owners, db'.grants, other, Database, Connect);
    }
  }

  /** CONNECT is granted to the group roles only by an actor that owns the database; for any
      other one the statements change nothing, though they go through. */
  lemma ConnectGranted(db: Db, actor: Role, config: Config, rights: Rights, db': Db, role: Role)
    requires Reconcilable(db, actor, config, rights) && Leaves(db, actor, config, db') && role in GROUP_ROLES
    ensures Grant(To(role), Database, Connect) in db'.grants <==>
              Grant(To(role), Database, Connect) in db.grants || OwnsDatabase(db.memberships, db.owners, actor)
  {
    hide ActsAs;
    var g := Grant(To(role), Database, Connect);
    assert g in Moved(db.owners, db.grants) <==> g in db.grants by {
      assert Inherited(db.owners, g) == g;
    }
    assert Granted(g) && !Revoked(g);
  }

  /** The same actor can always reconcile again, and the second time changes nothing. */
  lemma SecondRunChangesNothing(db: Db, actor: Role, config: Config, rights: Rights, db': Db, db'': Db)
    requires Reconcilable(db, actor, config, rights) && Leaves(db, actor, config, db')
    requires Leaves(db', actor, config, db'')
    ensures Reconcilable(db', actor, config, rights)
    ensures db'' == db'
  {
    hide ActsAs, Managed, Granted, Revoked, MayName, HasPrivilege;
    TransferredIsSettled(db.owners);
    SettledTransfersNothing(db'.owners, db'.grants, actor);
    WhoMayReconcileAgain(db, actor, config, rights, db', actor, rights);
    StillNamesDatabase(db, actor, config, db', actor);
    hide Moved, ObjectsOf;
    forall g ensures g in db''.grants <==> g in db'.grants {
    }
    assert db''.grants == db'.grants;
  }

  lemma StillNamesDatabase(db: Db, actor: Role, config: Config, db': Db, other: Role)
    requires Leaves(db, actor, config, db') && MayName(db.memberships, db.owners, db.grants, other, Database)
    ensures MayName(db.memberships, db'.owners, db'.grants, other, Database)
  {
    hide ActsAs, Managed, Granted, ObjectsOf;
    TransferKeepsDatabase(db.memberships, db.owners, db.grants);
    var p: Privilege :| HasPrivilege(db.memberships, db.owners, db.grants, other, Database, p);
    assert HasPrivilege(db.memberships, db'.owners, Moved(db.owners, db.grants), other, Database, p);
    forall to | Grant(to, Database, p) in Moved(db.owners, db.grants) ensures Grant(to, Database, p) in db'.grants {
      assert !Revoked(Grant(to, Database, p));
    }
    assert HasPrivilege(db.memberships, db'.owners, db'.grants, other, Database, p);
  }

  /** Who does not act as the schema owner by itself cannot reconcile, even when nothing is
      left to transfer and only the schema owner owns anything. */
  lemma StrangersCannotReconcile(db: Db, actor: Role, config: Config, rights: Rights)
    requires actor != OWNER && forall m <- db.memberships :: m.member != actor
    ensures !ActsAs(db.memberships, actor, OWNER) && !Reconcilable(db, actor, config, rights)
  {
    hide Assumable;
    if BelongsTo(db.memberships, actor, OWNER) {
      HasDirectGroup(db.memberships, actor, OWNER);
      assert false;
    }
  }

  /** A group that somebody belongs to has a member. */
  lemma HasMember(memberships: set<Membership>, role: Role, group: Role)
    requires BelongsTo(memberships, role, group)
    ensures exists m <- memberships :: m.group == group
  {
    var path :| IsPath(memberships, path, role, group);
    assert Membership(path[|path| - 1], path[|path| - 2]) in memberships;
  }

  /** Of what is there, `actor` owns the database, `app` one table, and the schema owner the rest. */
  predicate AlmostSettled(owners: map<Obj, Role>, actor: Role, app: Role) {
    && Database in owners && owners[Database] == actor
    && SCHEDULED_EVENTS in owners && owners[SCHEDULED_EVENTS] == app
    && forall o <- owners :: o != Database && o != SCHEDULED_EVENTS ==> owners[o] == OWNER
  }

  lemma OneForeignOwner(owners: map<Obj, Role>, actor: Role, app: Role)
    requires AlmostSettled(owners, actor, app) && actor != app && app != OWNER
    ensures ForeignOwners(owners, actor) == {app} && AllOwned(owners, true)
  {
    assert Managed(SCHEDULED_EVENTS);
  }

  /** Only the actor's and the app's memberships in the schema owner: nobody belongs to the actor. */
  lemma NobodyBelongs(memberships: set<Membership>, actor: Role, app: Role)
    requires actor != OWNER && memberships <= {Membership(OWNER, app), Membership(OWNER, actor)}
    ensures !BelongsTo(memberships, app, actor)
  {
    if BelongsTo(memberships, app, actor) {
      HasMember(memberships, app, actor);
      assert false;
    }
  }

  lemma DatabaseIsTheirs(owners: map<Obj, Role>, actor: Role, app: Role, memberships: set<Membership>)
    requires AlmostSettled(owners, actor, app)
    ensures OwnsDatabase(memberships, owners, actor)
  {
  }

  lemma MemberReconciles(actor: Role, app: Role, db: Db, config: Config, rights: Rights)
    requires actor != OWNER && app != OWNER && actor != app
    requires db.memberships == {Membership(OWNER, app), Membership(OWNER, actor)}
    requires AlmostSettled(db.owners, actor, app) && Complete(db.owners, db.roles)
    requires config == Config({app}, {}, None, "") && rights == Rights({app}, false, false, false)
    ensures Reconcilable(db, actor, config, rights)
  {
    hide HasPrivilege, BelongsTo, MayName, AlmostSettled, Complete;
    OneForeignOwner(db.owners, actor, app);
    hide ForeignOwners, AllOwned, Managed;
    DatabaseIsTheirs(db.owners, actor, app, db.memberships);
    OwnerMayName(db.memberships, db.owners, db.grants, actor);
    NobodyBelongs(db.memberships, actor, app);
    DirectBelongs(db.memberships, actor, OWNER);
  }

  /** What the memberships taken on for the transfer allow is not enough: here the actor owns
      the database, the one foreign owner belongs to the schema owner and can be granted to
      the actor, so that ownership can be transferred; but the memberships are revoked
      before the grants, and the default privileges of the schema owner are refused. As a
      member of the schema owner the actor could do it. */
  lemma TransferIsNotEnough(actor: Role, app: Role, db: Db, config: Config, rights: Rights)
    requires actor != OWNER && app != OWNER && actor != app
    requires db.memberships == {Membership(OWNER, app)}
    requires AlmostSettled(db.owners, actor, app) && Complete(db.owners, db.roles)
    requires config == Config({app}, {}, None, "") && rights == Rights({app}, false, false, false)
    ensures Transferable(db.owners, db.grants, db.memberships, actor, config.Known(), rights)
    ensures MayName(db.memberships, db.owners, db.grants, actor, Database)
    ensures !Reconcilable(db, actor, config, rights)
    ensures Reconcilable(db.(memberships := db.memberships + {Membership(OWNER, actor)}), actor, config, rights)
  {
    hide HasPrivilege, BelongsTo, MayName, Reconcilable, AlmostSettled;
    OneForeignOwner(db.owners, actor, app);
    hide ForeignOwners, AllOwned, Managed;
    MemberReconciles(actor, app, db.(memberships := db.memberships + {Membership(OWNER, actor)}), config, rights);
    DatabaseIsTheirs(db.owners, actor, app, db.memberships);
    OwnerMayName(db.memberships, db.owners, db.grants, actor);
    NobodyBelongs(db.memberships, actor, app);
    StrangersCannotReconcile(db, actor, config, rights);
    var assumed := Assumed(db.owners, db.memberships, actor);
    assert Membership(app, actor) in assumed && Membership(OWNER, app) in assumed;
    DirectBelongs(assumed, actor, app);
    OneMoreStep(assumed, actor, app, OWNER);
  }

  /** A group through which a listed role could change an immutable table. */
  predicate Harmful(db: Db, q: Role, table: Obj) {
    || q == OWNER
    || (q == RESET_RW && table != AUDIT_OUTBOX)
    || (&& q !in IMMUTABLE_ROLES && q != RESET_RW && table in db.owners && db.owners[table] != q
        && exists p <- CHANGING :: Grant(To(q), table, p) in db.grants)
  }

  /** A role other than the schema owner keeps through the transfer what it does not own. */
  lemma MovedGrants(owners: map<Obj, Role>, grants: set<Grant>, q: Role, o: Obj, p: Privilege)
    requires q != OWNER && o in owners && Managed(o)
    ensures Grant(To(q), o, p) in Moved(owners, grants) <==> Grant(To(q), o, p) in grants && owners[o] != q
  {
    hide Managed;
    var g := Grant(To(q), o, p);
    if g in grants && owners[o] != q {
      assert Inherited(owners, g) == g;
    }
  }

  lemma ChangingIsRevoked(q: Role, table: Obj, p: Privilege)
    requires table in IMMUTABLE_TABLES && p in CHANGING
    ensures Revoked(Grant(Public, table, p))
    ensures Revoked(Grant(To(q), table, p)) <==> q in IMMUTABLE_ROLES || (q == RESET_RW && table == AUDIT_OUTBOX)
  {
    assert table != RELAY_CHECKPOINT;
  }

  lemma ChangingIsGranted(q: Role, table: Obj, p: Privilege)
    requires table in IMMUTABLE_TABLES && p in CHANGING && q !in IMMUTABLE_ROLES
    ensures Granted(Grant(To(q), table, p)) <==> q == RESET_RW
  {
    if q == RESET_RW {
      assert RW_ACCESS[4].0 == RESET_RW;
      assert table.schema in RW_ACCESS[4].1;
      assert RwAccess(RESET_RW, table.schema);
    }
  }

  lemma ChangingGrants(db: Db, actor: Role, config: Config, db': Db, q: Role, table: Obj, p: Privilege)
    requires Leaves(db, actor, config, db') && table in IMMUTABLE_TABLES && table in db.owners && p in CHANGING
    ensures Grant(Public, table, p) !in db'.grants
    ensures q != OWNER ==>
      (Grant(To(q), table, p) in db'.grants <==>
         if q in IMMUTABLE_ROLES then false
         else if q == RESET_RW then table != AUDIT_OUTBOX
         else Grant(To(q), table, p) in db.grants && db.owners[table] != q)
  {
    hide ActsAs, Moved, Granted, Revoked;
    ChangingIsRevoked(q, table, p);
    if q != OWNER && q !in IMMUTABLE_ROLES {
      ChangingIsGranted(q, table, p);
      assert Managed(table);
      MovedGrants(db.owners, db.grants, q, table, p);
    }
  }

  /** After a reconciliation verification reports no missing group role or usage, no wrong
      owner and neither missing replication nor publication; it reports the principals,
      memberships, revision, epoch and slot that are not as expected all along, and a listed
      role as too broad for an immutable table exactly when it belongs to a group that is
      harmful for it: the schema owner, the reset role, or a role outside the list that was
      granted a change and did not own the table. */
  lemma ReconciledVerifies(db: Db, actor: Role, config: Config, rights: Rights, db': Db, f: Finding)
    requires Reconcilable(db, actor, config, rights) && Leaves(db, actor, config, db')
    ensures Checkable(db'.owners, db'.roles) <==> REVISIONS in db.owners && EPOCHS in db.owners
    ensures Finds(db', config, f) <==> Found(db, config, f)
  {
    hide BelongsTo, Granted, Revoked, Reconciled, ObjectsOf, Assumable, MayName;
    TransferredKeepsComplete(db.owners, db.roles);
    ListedRolesAreThere(db'.owners, db'.roles);
    match f
    case MissingUsage(role, schema) =>
      if RwAccess(role, schema) {
        UsageIsGranted(db, actor, config, db', role, schema);
        assert ActsAs(db.memberships, role, role) && Held(db'.owners, db'.grants, role, Schema(schema), Usage);
      }
    case PermissionsTooBroad(role, table) =>
      if role in IMMUTABLE_ROLES && table in IMMUTABLE_TABLES {
        TooBroadMeansHarmful(db, actor, config, db', role, table);
      }
    case _ =>
  }

  // ------------------------------------------------- what the roles can do then

  /** Which application role works in which schema. */
  predicate Serves(role: Role, schema: string) {
    || (role in {BANKING_RW, RESET_RW, SUPPORT_RW} && schema in SCHEMAS)
    || (role == KYC_RW && schema in {"kyc", "identity", "ref_data", "merchants"})
    || (role == LEDGER_RW && schema in {"ledger", "audit", "catalog", "ref_data", "merchants"})
    || (role == VOICE_RW && schema == "voice_support_sessions")
  }

  lemma ServesIsAccess(role: Role, schema: string)
    ensures RwAccess(role, schema) <==> Serves(role, schema)
  {
    assert |RW_ACCESS| == 6;
    if Serves(role, schema) {
      assert RW_ACCESS[0].0 == BANKING_RW && RW_ACCESS[1].0 == KYC_RW && RW_ACCESS[2].0 == LEDGER_RW;
      assert RW_ACCESS[3].0 == VOICE_RW && RW_ACCESS[4].0 == RESET_RW && RW_ACCESS[5].0 == SUPPORT_RW;
    }
  }

  /** What is granted on an object that is there, and not revoked, can be used. */
  lemma CanUseIt(db: Db, actor: Role, config: Config, db': Db, role: Role, o: Obj, p: Privilege)
    requires Leaves(db, actor, config, db') && o != Database && o in db.owners.Keys + FUTURES
    requires Granted(Grant(To(role), o, p)) && !Revoked(Grant(To(role), o, p))
    ensures Grant(To(role), o, p) in db'.grants
    ensures HasPrivilege(db'.memberships, db'.owners, db'.grants, role, o, p)
  {
    hide Granted, Revoked, FUTURES;
    assert o in ObjectsOf(db'.owners, db.memberships, actor);
    hide ObjectsOf;
    assert ActsAs(db'.memberships, role, role) && Held(db'.owners, db'.grants, role, o, p);
  }

  predicate IsTable(o: Obj, schema: string) {
    o.Relation? && o.schema == schema && o.kind in {Table, View, MaterializedView}
  }

  predicate IsSequence(o: Obj, schema: string) {
    o.Relation? && o.schema == schema && o.kind == Sequence
  }

  lemma ManagedMeans(o: Obj)
    ensures Managed(o) <==>
      SchemaOf(o) in SCHEMAS
      && (o == Schema(SchemaOf(o)) || IsTable(o, SchemaOf(o)) || IsSequence(o, SchemaOf(o)))
  {
  }

  /** After a reconciliation every application role can use its schemas, select from and
      insert into all their tables, and update and delete there but for what is immutable. */
  lemma RolesCanWork(db: Db, actor: Role, config: Config, db': Db, role: Role, schema: string, o: Obj)
    requires Leaves(db, actor, config, db') && Serves(role, schema) && o in db.owners
    ensures var can := (p: Privilege) => Grant(To(role), o, p) in db'.grants;
      && (o == Schema(schema) ==> can(Usage))
      && (IsTable(o, schema) ==> can(Select) && can(Insert))
      && (IsTable(o, schema) && o !in IMMUTABLE_TABLES && o != RELAY_CHECKPOINT ==> can(Update) && can(Delete))
      && (o == Relation(schema, SchemaRelation(o), Sequence) ==> can(Usage) && can(Select) && can(Update))
  {
    hide Leaves, Serves, RwAccess;
    ServesIsAccess(role, schema);
    forall p: Privilege | RwOn(Grant(To(role), o, p), role, schema) && !Revoked(Grant(To(role), o, p))
      ensures Grant(To(role), o, p) in db'.grants
    {
      RwIsGranted(role, schema, o, p);
      CanUseIt(db, actor, config, db', role, o, p);
    }
    assert AUDIT_OUTBOX in IMMUTABLE_TABLES;
  }

  function SchemaRelation(o: Obj): string {
    if o.Relation? then o.name else ""
  }

  lemma RwIsGranted(role: Role, schema: string, o: Obj, p: Privilege)
    requires RwAccess(role, schema) && RwOn(Grant(To(role), o, p), role, schema)
    ensures Granted(Grant(To(role), o, p)) && SchemaOf(o) == schema && o != Database
  {
  }

  /** So it goes for tables and sequences the schema owner will create. */
  lemma RolesCanWorkLater(db: Db, actor: Role, config: Config, db': Db, role: Role, schema: string)
    requires Leaves(db, actor, config, db') && Serves(role, schema)
    ensures forall p <- [Select, Insert, Update, Delete] :: Grant(To(role), Future(schema, false), p) in db'.grants
    ensures forall p <- [Usage, Select, Update] :: Grant(To(role), Future(schema, true), p) in db'.grants
  {
    hide Leaves;
    ServesIsAccess(role, schema);
    ServedIsListed(role, schema);
    hide Serves, RwAccess;
    forall p: Privilege, b: bool | RwOn(Grant(To(role), Future(schema, b), p), role, schema)
      ensures Grant(To(role), Future(schema, b), p) in db'.grants
    {
      RwIsGranted(role, schema, Future(schema, b), p);
      CanUseIt(db, actor, config, db', role, Future(schema, b), p);
    }
  }

  lemma ServedIsListed(role: Role, schema: string)
    requires Serves(role, schema)
    ensures schema in SCHEMAS && Future(schema, false) in FUTURES && Future(schema, true) in FUTURES
  {
  }

  /** The reset role can empty every table but the outbox and the relay's checkpoint. */
  lemma ResetCanTruncate(db: Db, actor: Role, config: Config, db': Db, schema: string, o: Obj)
    requires Leaves(db, actor, config, db') && schema in SCHEMAS && o in db.owners && IsTable(o, schema)
    ensures o != AUDIT_OUTBOX && o != RELAY_CHECKPOINT ==> Grant(To(RESET_RW), o, Truncate) in db'.grants
    ensures o == AUDIT_OUTBOX || o == RELAY_CHECKPOINT ==> Grant(To(RESET_RW), o, Truncate) !in db'.grants
  {
    var g := Grant(To(RESET_RW), o, Truncate);
    assert TruncateOn(g, schema);
    if o != AUDIT_OUTBOX && o != RELAY_CHECKPOINT {
      assert !Revoked(g);
      hide Leaves;
      CanUseIt(db, actor, config, db', RESET_RW, o, Truncate);
    } else {
      assert Revoked(g);
      hide Granted, Revoked, ObjectsOf, Moved;
    }
  }

  /** The readers can read the tables of their schemas, present and future. */
  lemma ReadersCanRead(db: Db, actor: Role, config: Config, db': Db, role: Role, schema: string, o: Obj)
    requires Leaves(db, actor, config, db') && (o in db.owners || o == Future(schema, false))
    requires || (role == VIEWER_RO && schema in RESET_SCHEMAS)
             || (role == CDC_RO && schema in CDC_SCHEMAS)
    ensures o == Schema(schema) ==> Grant(To(role), o, Usage) in db'.grants
    ensures IsTable(o, schema) || o == Future(schema, false) ==> Grant(To(role), o, Select) in db'.grants
  {
    hide Leaves;
    ListedIsSchema(schema);
    if o == Schema(schema) {
      assert ReadOn(Grant(To(role), o, Usage), role, schema);
      CanUseIt(db, actor, config, db', role, o, Usage);
    } else if IsTable(o, schema) || o == Future(schema, false) {
      assert ReadOn(Grant(To(role), o, Select), role, schema);
      CanUseIt(db, actor, config, db', role, o, Select);
    }
  }

  lemma ListedIsSchema(schema: string)
    requires schema in RESET_SCHEMAS || schema in CDC_SCHEMAS
    ensures schema in SCHEMAS && Future(schema, false) in FUTURES
  {
  }

  /** The grants that name one role and one object hold, too. */
  lemma SingleStands(db: Db, actor: Role, config: Config, db': Db, role: Role, o: Obj, p: Privilege)
    requires Leaves(db, actor, config, db') && o in db.owners && o != Database
    requires Single(Grant(To(role), o, p)) && !Revoked(Grant(To(role), o, p))
    ensures Grant(To(role), o, p) in db'.grants
  {
    hide Leaves, Single, Revoked;
    CanUseIt(db, actor, config, db', role, o, p);
  }

  /** The audit relay can read the outbox and keep its checkpoint. */
  lemma RelayCanWork(db: Db, actor: Role, config: Config, db': Db, o: Obj, p: Privilege)
    requires Leaves(db, actor, config, db') && o in db.owners
    requires || (o == Schema("audit") && p == Usage) || (o == AUDIT_OUTBOX && p == Select)
             || (o == RELAY_CHECKPOINT && p in {Select, Insert, Update})
    ensures Grant(To(AUDIT_RELAY), o, p) in db'.grants
  {
    assert !Revoked(Grant(To(AUDIT_RELAY), o, p));
    hide Leaves, Revoked;
    SingleStands(db, actor, config, db', AUDIT_RELAY, o, p);
  }

  /** The scheduler can work on its table, the voice service can create in its schema. */
  lemma ServicesCanWork(db: Db, actor: Role, config: Config, db': Db, role: Role, o: Obj, p: Privilege)
    requires Leaves(db, actor, config, db') && o in db.owners
    requires || (role == DATA_GENERATOR_RW && o == Schema("operations") && p == Usage)
             || (role == DATA_GENERATOR_RW && o == SCHEDULED_EVENTS && p in {Select, Insert, Update, Delete})
             || (role == VOICE_RW && o == Schema("voice_support_sessions") && p == Create)
    ensures Grant(To(role), o, p) in db'.grants
  {
    assert !Revoked(Grant(To(role), o, p));
    hide Leaves, Revoked;
    SingleStands(db, actor, config, db', role, o, p);
  }

  /** Whatever is new is CONNECT for a group role, or goes to one other than the schema owner
      and is modest: readers get no more than to read, only the reset role may truncate,
      only the voice role create, and nobody but the reset role changes immutable tables. */
  lemma NewGrantsAreModest(db: Db, actor: Role, config: Config, db': Db, g: Grant)
    requires Leaves(db, actor, config, db') && g in db'.grants && g !in Moved(db.owners, db.grants)
    ensures Modest(g) || (g.to.To? && g.to.role in GROUP_ROLES && g.on == Database && g.privilege == Connect)
    ensures g.on in IMMUTABLE_TABLES && g.privilege in CHANGING ==> g.to == To(RESET_RW) && g.on != AUDIT_OUTBOX
  {
    hide Moved, ObjectsOf, Granted, Revoked, Modest;
    assert Granted(g) && !Revoked(g);
    hide Leaves;
    GrantedIsModest(g);
    if g.on in IMMUTABLE_TABLES && g.privilege in CHANGING {
      assert g.to.To? && g.to.role in GROUP_ROLES && g.to.role != OWNER by {
        ModestMeans(g);
      }
      ListedMeans(g);
    }
  }

  lemma ModestMeans(g: Grant)
    ensures Modest(g) ==> g.to.To? && g.to.role in GROUP_ROLES && g.to.role != OWNER
    ensures g.on in IMMUTABLE_TABLES ==> g.on != Database
  {
  }

  /** What may be granted on a schema, a table or a sequence, and to whom. */
  predicate Modest(g: Grant) {
    && g.to.To? && g.to.role in GROUP_ROLES && g.to.role != OWNER && g.on != Database
    && g.privilege in {Select, Insert, Update, Delete, Truncate, Usage, Create}
    && (g.to.role == VIEWER_RO || g.to.role == CDC_RO ==> g.privilege == Select || g.privilege == Usage)
    && (g.privilege == Truncate ==> g.to.role == RESET_RW)
    && (g.privilege == Create ==> g.to.role == VOICE_RW && g.on == Schema("voice_support_sessions"))
    && (g.to.role == AUDIT_RELAY ==> SchemaOf(g.on) == "audit" && g.privilege != Delete)
  }

  lemma RwIsModest(g: Grant)
    requires g.to.To? && RwAccess(g.to.role, SchemaOf(g.on)) && RwOn(g, g.to.role, SchemaOf(g.on))
    ensures Modest(g)
  {
    ServesIsAccess(g.to.role, SchemaOf(g.on));
    hide RwAccess;
  }

  lemma ReadIsModest(g: Grant, role: Role, schema: string)
    requires ReadOn(g, role, schema) && (role == VIEWER_RO || role == CDC_RO)
    ensures Modest(g)
  {
  }

  lemma TruncateIsModest(g: Grant, schema: string)
    requires TruncateOn(g, schema)
    ensures Modest(g)
  {
  }

  lemma SingleIsModest(g: Grant)
    requires Single(g)
    ensures Modest(g)
  {
  }

  lemma GrantedIsModest(g: Grant)
    requires Granted(g)
    ensures Modest(g) || (g.to.To? && g.to.role in GROUP_ROLES && g.on == Database && g.privilege == Connect)
  {
    hide Modest, RwAccess, RwOn, ReadOn, TruncateOn, Single;
    var schema := SchemaOf(g.on);
    if g.to.To? && RwAccess(g.to.role, schema) && RwOn(g, g.to.role, schema) {
      RwIsModest(g);
    } else if TruncateOn(g, schema) {
      TruncateIsModest(g, schema);
    } else if ReadOn(g, VIEWER_RO, schema) {
      ReadIsModest(g, VIEWER_RO, schema);
    } else if ReadOn(g, CDC_RO, schema) {
      ReadIsModest(g, CDC_RO, schema);
    } else if Single(g) {
      SingleIsModest(g);
    }
  }

  lemma ListedMeans(g: Grant)
    requires !Revoked(g) && g.on in IMMUTABLE_TABLES && g.privilege in CHANGING && g.to.To? && g.to.role in GROUP_ROLES
    ensures (g.to == To(RESET_RW) && g.on != AUDIT_OUTBOX) || g.to == To(OWNER)
  {
  }

  ghost predicate MaySlot(db: Db, config: Config, rights: Rights, logical: bool) {
    config.cdcUser.Some? ==> logical && (db.slot || rights.slots)
  }

  /** Exactly when the whole command ends well: reconciliation is possible and the slot can be
      had; principals, memberships, revision and epoch are as expected all along; and no
      listed role belongs to a group that is harmful for an immutable table. */
  ghost predicate Succeeds(db: Db, actor: Role, config: Config, rights: Rights, logical: bool) {
    && Reconcilable(db, actor, config, rights) && MaySlot(db, config, rights, logical)
    && REVISIONS in db.owners && EPOCHS in db.owners
    && config.principals <= db.roles
    && (forall m <- config.members :: m.group in db.roles && m.member in db.roles ==> m in db.memberships)
    && db.revision != "" && (config.revision != "" ==> db.revision == config.revision) && db.epoch
    && forall role <- IMMUTABLE_ROLES, table <- IMMUTABLE_TABLES, q ::
         BelongsTo(db.memberships, role, q) ==> !Harmful(db, q, table)
  }

  lemma CommandVerifies(db: Db, actor: Role, config: Config, rights: Rights, logical: bool, db': Db, db'': Db)
    requires Reconcilable(db, actor, config, rights) && Leaves(db, actor, config, db')
    requires db'' == db'.(slot := db''.slot)
    requires db''.slot == (db.slot || (MaySlot(db, config, rights, logical) && config.cdcUser.Some?))
    ensures Leaves(db, actor, config, db''.(slot := db.slot))
    ensures Succeeds(db, actor, config, rights, logical) <==>
      MaySlot(db, config, rights, logical) && Checkable(db''.owners, db''.roles) && forall f :: !Finds(db'', config, f)
  {
    hide BelongsTo, Reconciled, ObjectsOf, Assumable, MayName, HasPrivilege, Harmful, Checkable;
    assert db''.(slot := db.slot) == db';
    hide Complete;
    assert MaySlot(db, config, rights, logical) ==> !Finds(db'', config, NoSlot);
    forall f: Finding
      ensures !f.NoSlot? ==> (Finds(db'', config, f) <==> Found(db, config, f))
      ensures Checkable(db''.owners, db''.roles) <==> REVISIONS in db.owners && EPOCHS in db.owners
    {
      ReconciledVerifies(db, actor, config, rights, db', f);
      SlotAside(db', db'', config, f);
    }
    assert Checkable(db''.owners, db''.roles) <==> REVISIONS in db.owners && EPOCHS in db.owners by {
      ReconciledVerifies(db, actor, config, rights, db', NoEpoch);
    }
    NothingFound(db, config);
    hide Finds, Found, Reconcilable, Leaves, RwAccess;
    assert forall f: Finding :: f.NoSlot? ==> f == NoSlot;
  }

  /** What verification finds, said of the rows before reconciliation. */
  ghost predicate Found(db: Db, config: Config, f: Finding) {
    match f
    case MissingRole(role) => role in config.principals && role !in db.roles
    case MissingMembership(m) =>
      m in config.members && m !in db.memberships && m.group in db.roles && m.member in db.roles
    case PermissionsTooBroad(role, table) =>
      && role in IMMUTABLE_ROLES && table in IMMUTABLE_TABLES
      && exists q :: BelongsTo(db.memberships, role, q) && Harmful(db, q, table)
    case NoSlot => config.cdcUser.Some? && !db.slot
    case EmptyRevision => db.revision == ""
    case WrongRevision(revision) => revision == db.revision != config.revision && config.revision != ""
    case NoEpoch => !db.epoch
    case _ => false
  }

  lemma SlotAside(db: Db, db': Db, config: Config, f: Finding)
    requires db' == db.(slot := db'.slot)
    ensures !f.NoSlot? ==> (Finds(db', config, f) <==> Finds(db, config, f))
  {
  }

  lemma NothingFound(db: Db, config: Config)
    ensures (forall f: Finding :: !f.NoSlot? ==> !Found(db, config, f)) <==>
      && config.principals <= db.roles
      && (forall m <- config.members :: m.group in db.roles && m.member in db.roles ==> m in db.memberships)
      && db.revision != "" && (config.revision != "" ==> db.revision == config.revision) && db.epoch
      && forall role <- IMMUTABLE_ROLES, table <- IMMUTABLE_TABLES, q ::
           BelongsTo(db.memberships, role, q) ==> !Harmful(db, q, table)
  {
    hide BelongsTo, Harmful;
    if forall f: Finding :: !f.NoSlot? ==> !Found(db, config, f) {
      assert !Found(db, config, EmptyRevision) && !Found(db, config, NoEpoch);
      assert !Found(db, config, WrongRevision(db.revision));
      forall role <- config.principals ensures role in db.roles {
        assert !Found(db, config, MissingRole(role));
      }
      forall m <- config.members | m.group in db.roles && m.member in db.roles ensures m in db.memberships {
        assert !Found(db, config, MissingMembership(m));
      }
      forall role <- IMMUTABLE_ROLES, table <- IMMUTABLE_TABLES, q | BelongsTo(db.memberships, role, q)
        ensures !Harmful(db, q, table)
      {
        assert !Found(db, config, PermissionsTooBroad(role, table));
      }
    }
  }

  /** Verification reports nothing exactly when the database is as it should be: roles,
      memberships and revision as configured; every application role able to use its schemas;
      everything managed with the schema owner; nobody of the listed roles able to change an
      immutable table by any path; and replication, if asked for by a known role, set up. */
  ghost predicate Sound(db: Db, config: Config) {
    var can := (role: Role, o: Obj, p: Privilege) => HasPrivilege(db.memberships, db.owners, db.grants, role, o, p);
    && (forall r :: r in GROUP_ROLES || r in config.principals ==> r in db.roles)
    && (forall m <- config.members :: m in db.memberships || m.group !in db.roles || m.member !in db.roles)
    && (forall role, schema :: Serves(role, schema) ==> can(role, Schema(schema), Usage))
    && (forall o <- db.owners, s <- SCHEMAS :: (o == Schema(s) || IsTable(o, s) || IsSequence(o, s)) ==>
          db.owners[o] == OWNER)
    && (forall role <- IMMUTABLE_ROLES, table <- IMMUTABLE_TABLES, p <- [Update, Delete, Truncate] ::
          !can(role, table, p))
    && (config.cdcUser.Some? && config.cdcUser.value in db.roles ==>
          config.cdcUser.value in db.replicating && db.published && db.slot)
    && db.revision != "" && (config.revision == "" || config.revision == db.revision) && db.epoch
  }

  lemma NothingFoundMeansSound(db: Db, config: Config)
    ensures (forall f :: !Finds(db, config, f)) <==> Sound(db, config)
  {
    hide Finds, Sound, RwAccess, Serves;
    forall role, schema ensures RwAccess(role, schema) <==> Serves(role, schema) {
      ServesIsAccess(role, schema);
    }
    if Sound(db, config) {
      forall f ensures !Finds(db, config, f) {
        SoundMeansQuiet(db, config, f);
      }
    }
    if forall f :: !Finds(db, config, f) {
      SoundByFindings(db, config);
    }
  }

  lemma SoundMeansQuiet(db: Db, config: Config, f: Finding)
    requires Sound(db, config)
    requires forall role, schema :: RwAccess(role, schema) <==> Serves(role, schema)
    ensures !Finds(db, config, f)
  {
    hide HasPrivilege, RwAccess, Serves, Managed, TooBroad;
    if f.WrongOwner? {
      ManagedMeans(f.o);
    }
    if f.PermissionsTooBroad? && f.role in IMMUTABLE_ROLES && f.table in IMMUTABLE_TABLES {
      NotAnyTooBroad(db, f.role, f.table);
    }
  }

  lemma NotAnyTooBroad(db: Db, role: Role, table: Obj)
    requires forall p <- [Update, Delete, Truncate] ::
               !HasPrivilege(db.memberships, db.owners, db.grants, role, table, p)
    ensures !TooBroad(db.memberships, db.owners, db.grants, role, table)
  {
    hide HasPrivilege;
  }

  lemma SoundByFindings(db: Db, config: Config)
    requires forall f :: !Finds(db, config, f)
    requires forall role, schema :: RwAccess(role, schema) <==> Serves(role, schema)
    ensures Sound(db, config)
  {
    hide HasPrivilege, RwAccess, Serves, Managed, TooBroad;
    forall r | r in GROUP_ROLES || r in config.principals ensures r in db.roles {
      assert !Finds(db, config, MissingRole(r));
    }
    forall m <- config.members ensures m in db.memberships || m.group !in db.roles || m.member !in db.roles {
      assert !Finds(db, config, MissingMembership(m));
    }
    forall role, schema | Serves(role, schema)
      ensures HasPrivilege(db.memberships, db.owners, db.grants, role, Schema(schema), Usage)
    {
      assert !Finds(db, config, MissingUsage(role, schema));
    }
    forall o <- db.owners, s <- SCHEMAS | o == Schema(s) || IsTable(o, s) || IsSequence(o, s)
      ensures db.owners[o] == OWNER
    {
      ManagedMeans(o);
      assert !Finds(db, config, WrongOwner(o));
    }
    forall role <- IMMUTABLE_ROLES, table <- IMMUTABLE_TABLES, p <- [Update, Delete, Truncate]
      ensures !HasPrivilege(db.memberships, db.owners, db.grants, role, table, p)
    {
      assert !Finds(db, config, PermissionsTooBroad(role, table));
      NotTooBroad(db, role, table, p);
    }
    assert !Finds(db, config, EmptyRevision) && !Finds(db, config, WrongRevision(db.revision));
    assert !Finds(db, config, NoEpoch) && !Finds(db, config, NoPublication) && !Finds(db, config, NoSlot);
    if config.cdcUser.Some? {
      assert !Finds(db, config, NoReplication(config.cdcUser.value));
    }
  }

  lemma NotTooBroad(db: Db, role: Role, table: Obj, p: Privilege)
    requires !TooBroad(db.memberships, db.owners, db.grants, role, table) && p in [Update, Delete, Truncate]
    ensures !HasPrivilege(db.memberships, db.owners, db.grants, role, table, p)
  {
    hide HasPrivilege;
    assert p in CHANGING;
  }

  /** What reconciling changes of owners and replication is what verification reports of them
      before, object by object; and every missing usage it reports is granted anew. */
  lemma FoundIsMended(db: Db, actor: Role, config: Config, rights: Rights, db': Db)
    requires Reconcilable(db, actor, config, rights) && Leaves(db, actor, config, db')
    ensures forall o <- db.owners ::
              o in db'.owners && (db'.owners[o] != db.owners[o] <==> Finds(db, config, WrongOwner(o)))
    ensures forall r :: r in db'.replicating && r !in db.replicating <==> Finds(db, config, NoReplication(r))
    ensures db'.published && !db.published <==> Finds(db, config, NoPublication)
    ensures forall role, schema :: Finds(db, config, MissingUsage(role, schema)) ==>
              Grant(To(role), Schema(schema), Usage) in db'.grants - db.grants
  {
    hide Assumable, MayName, Reconciled, RwAccess, ActsAs, ObjectsOf, Moved;
    forall role, schema | Finds(db, config, MissingUsage(role, schema))
      ensures Grant(To(role), Schema(schema), Usage) in db'.grants - db.grants
    {
      UsageIsGranted(db, actor, config, db', role, schema);
      if Grant(To(role), Schema(schema), Usage) in db.grants {
        UsageWouldDo(db, role, schema);
      }
    }
  }

  lemma UsageWouldDo(db: Db, role: Role, schema: string)
    requires Grant(To(role), Schema(schema), Usage) in db.grants
    ensures HasPrivilege(db.memberships, db.owners, db.grants, role, Schema(schema), Usage)
  {
    assert ActsAs(db.memberships, role, role) && Held(db.owners, db.grants, role, Schema(schema), Usage);
  }

  lemma UsageIsGranted(db: Db, actor: Role, config: Config, db': Db, role: Role, schema: string)
    requires Complete(db.owners, db.roles) && Leaves(db, actor, config, db') && RwAccess(role, schema)
    ensures Grant(To(role), Schema(schema), Usage) in db'.grants
  {
    hide ActsAs;
    var i :| 0 <= i < |RW_ACCESS| && RW_ACCESS[i].0 == role && schema in RW_ACCESS[i].1;
    SchemasAreThere(db.owners, db.roles, RW_ACCESS[i].1);
    var g := Grant(To(role), Schema(schema), Usage);
    assert RwOn(g, role, schema) && Granted(g);
  }

  /** What a role other than the listed ones, or one of them, holds afterwards. */
  lemma HeldIsHarmful(db: Db, actor: Role, config: Config, db': Db, q: Role, table: Obj)
    requires Complete(db.owners, db.roles) && Leaves(db, actor, config, db') && table in IMMUTABLE_TABLES
    ensures (exists p <- CHANGING :: Held(db'.owners, db'.grants, q, table, p)) <==> Harmful(db, q, table)
    ensures forall p <- CHANGING :: Grant(Public, table, p) !in db'.grants
    ensures q in IMMUTABLE_ROLES ==> !Harmful(db, q, table)
  {
    hide Granted, Revoked, Reconciled, Moved, ObjectsOf;
    assert table in db'.owners && db'.owners[table] == OWNER;
    forall p <- CHANGING
      ensures Held(db'.owners, db'.grants, q, table, p) <==>
                q == OWNER || (if q in IMMUTABLE_ROLES then false
                               else if q == RESET_RW then table != AUDIT_OUTBOX
                               else Grant(To(q), table, p) in db.grants && db.owners[table] != q)
      ensures Grant(Public, table, p) !in db'.grants
    {
      ChangingGrants(db, actor, config, db', q, table, p);
    }
    assert Update in CHANGING;
  }

  lemma TooBroadMeansHarmful(db: Db, actor: Role, config: Config, db': Db, role: Role, table: Obj)
    requires Complete(db.owners, db.roles) && Leaves(db, actor, config, db')
    requires role in IMMUTABLE_ROLES && table in IMMUTABLE_TABLES
    ensures TooBroad(db.memberships, db'.owners, db'.grants, role, table)
      <==> exists q :: BelongsTo(db.memberships, role, q) && Harmful(db, q, table)
  {
    hide BelongsTo, Leaves, Held, Harmful;
    forall q
      ensures (exists p <- CHANGING :: Held(db'.owners, db'.grants, q, table, p)) <==> Harmful(db, q, table)
      ensures forall p <- CHANGING :: Grant(Public, table, p) !in db'.grants
      ensures q in IMMUTABLE_ROLES ==> !Harmful(db, q, table)
    {
      HeldIsHarmful(db, actor, config, db', q, table);
    }
    if q :| BelongsTo(db.memberships, role, q) && Harmful(db, q, table) {
      var p :| p in CHANGING && Held(db'.owners, db'.grants, q, table, p);
      assert ActsAs(db.memberships, role, q);
      assert HasPrivilege(db.memberships, db'.owners, db'.grants, role, table, p);
    }
  }

  lemma HasDirectGroup(memberships: set<Membership>, role: Role, q: Role)
    requires BelongsTo(memberships, role, q)
    ensures exists m <- memberships :: m.member == role
  {
    var path :| IsPath(memberships, path, role, q);
    assert Membership(path[1], path[0]) in memberships;
  }

  /** In particular verification passes when what is configured is there and the listed roles
      belong to no group at all. */
  lemma IsolatedRolesVerify(db: Db, actor: Role, config: Config, rights: Rights, db': Db, f: Finding)
    requires Reconcilable(db, actor, config, rights) && Leaves(db, actor, config, db')
    requires config.principals <= db.roles && config.members <= db.memberships
    requires db.revision != "" && (config.revision != "" ==> db.revision == config.revision) && db.epoch
    requires config.cdcUser.Some? ==> db.slot
    requires forall m <- db.memberships :: m.member !in IMMUTABLE_ROLES
    ensures !Finds(db', config, f)
  {
    hide Finds, Reconcilable, Leaves, BelongsTo, Harmful;
    ReconciledVerifies(db, actor, config, rights, db', f);
    if f.PermissionsTooBroad? && f.role in IMMUTABLE_ROLES {
      forall q ensures !BelongsTo(db.memberships, f.role, q) {
        if BelongsTo(db.memberships, f.role, q) {
          HasDirectGroup(db.memberships, f.role, q);
          assert false;
        }
      }
    }
  }
}
