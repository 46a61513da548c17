/** The transactions that read or write provider settings, secrets and the
    Hub/server inventory, as programs over advisory and row locks interleaved
    operation by operation. Writes become visible at commit, which also releases
    the locks. */
module Locks {
  import opened Text
  import opened Codec

  datatype Lock = SettingsLock | RbacLock | InventoryLock | HubRow(id: int) | FeatureRow

  function Rank(l: Lock): nat {
    match l
    case SettingsLock => 0
    case RbacLock => 1
    case InventoryLock => 2
    case HubRow(_) => 3
    case FeatureRow => 4
  }

  /** One IntegrationGeneration with the state it was taken from. */
  datatype Capture = Capture(keys: seq<string>, secretKey: string, configFingerprint: string,
                             inventoryFingerprint: string,
                             settings: map<string, string>, encrypted: string, inventory: seq<InventoryRow>)

  datatype Kind =
    | UpdateSettings(values: map<string, string>, newSecrets: map<string, string>)
    | DeleteSecret(secretKey: string)
    | CreateHub(rows: seq<InventoryRow>)
    | UpdateHub(hub: int, rows: seq<InventoryRow>)
    | DeleteHub(hub: int, rows: seq<InventoryRow>)
    | SyncHub(hub: int, rows: seq<InventoryRow>)
    | HubHealth(hub: int)
    | SaveRole
    | SetRoleBindings
    | SaveBatch(capture: int)
    | UpdatePods(capture: int, rows: seq<InventoryRow>)

  datatype Op = Acquire(lock: Lock) | CheckConfig | CheckInventory | Commit

  function Program(k: Kind): seq<Op> {
    match k
    case UpdateSettings(_, _) => [Acquire(SettingsLock), Acquire(FeatureRow), Commit]
    case DeleteSecret(_) => [Commit]
    case CreateHub(_) => [Acquire(InventoryLock), Commit]
    case UpdateHub(hub, _) => [Acquire(InventoryLock), Acquire(HubRow(hub)), Commit]
    case DeleteHub(hub, _) => [Acquire(RbacLock), Acquire(InventoryLock), Acquire(HubRow(hub)), Commit]
    case SyncHub(hub, _) => [Acquire(InventoryLock), Acquire(HubRow(hub)), Commit]
    case HubHealth(hub) => [Acquire(HubRow(hub)), Commit]
    case SaveRole => [Acquire(RbacLock), Commit]
    case SetRoleBindings => [Acquire(RbacLock), Acquire(InventoryLock), Commit]
    case SaveBatch(_) => [Acquire(SettingsLock), CheckConfig, Acquire(InventoryLock), CheckInventory,
                          Acquire(FeatureRow), Commit]
    case UpdatePods(_, _) => [Acquire(SettingsLock), CheckConfig, Acquire(InventoryLock), CheckInventory, Commit]
  }

  function CaptureOf(k: Kind): Option<int> {
    match k
    case SaveBatch(c) => Some(c)
    case UpdatePods(c, _) => Some(c)
    case _ => None
  }

  datatype Database = Database(settings: map<string, string>, secrets: map<string, string>,
                               inventory: seq<InventoryRow>)

  /** secretGone: a DeleteSecret of the captured key committed after CheckConfig. */
  datatype Txn = Txn(kind: Kind, pc: nat, secretGone: bool)
  datatype Saved = Saved(capture: Capture, at: Database, secretGone: bool)
  datatype State = State(db: Database, txns: map<int, Txn>, captures: map<int, Capture>, saved: seq<Saved>)

  datatype Event = Take(capture: int, keys: seq<string>, secretKey: string) | Begin(txn: int, kind: Kind)
      | Next(txn: int) | Abort(txn: int)

  function Held(t: Txn): set<Lock>
    requires t.pc <= |Program(t.kind)|
  {
    set i | 0 <= i < t.pc && Program(t.kind)[i].Acquire? :: Program(t.kind)[i].lock
  }

  predicate Free(s: State, l: Lock, me: int)
    requires forall u | u in s.txns :: s.txns[u].pc <= |Program(s.txns[u].kind)|
  {
    forall u | u in s.txns && u != me :: l !in Held(s.txns[u])
  }

  function Encrypted(db: Database, secretKey: string): string {
    if secretKey in db.secrets then db.secrets[secretKey] else []
  }

  function TakeCapture(db: Database, keys: seq<string>, secretKey: string): Capture {
    Capture(keys, secretKey, ConfigStream(keys, db.settings, Encrypted(db, secretKey)), InventoryStream(db.inventory),
            db.settings, Encrypted(db, secretKey), db.inventory)
  }

  function Apply(db: Database, k: Kind): Database {
    match k
    case UpdateSettings(values, newSecrets) => db.(settings := db.settings + values, secrets := db.secrets + newSecrets)
    case DeleteSecret(key) => db.(secrets := db.secrets - {key})
    case CreateHub(rows) => db.(inventory := rows)
    case UpdateHub(_, rows) => db.(inventory := rows)
    case DeleteHub(_, rows) => db.(inventory := rows)
    case SyncHub(_, rows) => db.(inventory := rows)
    case UpdatePods(_, rows) => db.(inventory := rows)
    case _ => db
  }

  /** What PostgreSQL and Go can hold: lengths fit 64 bits, ciphertexts are not empty. */
  ghost predicate Representable(db: Database) {
    && Fits(db.settings) && (forall k | k in db.secrets :: 0 < |db.secrets[k]| < WORD)
    && (forall r | r in db.inventory :: RowFits(r))
  }

  predicate WellFormed(s: State) {
    forall u | u in s.txns :: s.txns[u].pc < |Program(s.txns[u].kind)|
  }

  function CommitTxn(s: State, me: int): State
    requires me in s.txns
  {
    var t := s.txns[me];
    var others := s.txns - {me};
    var marked :=
      if t.kind.DeleteSecret? && t.kind.secretKey in s.db.secrets then
        map u | u in others ::
          if CaptureOf(others[u].kind).Some? && CaptureOf(others[u].kind).value in s.captures
             && s.captures[CaptureOf(others[u].kind).value].secretKey == t.kind.secretKey && others[u].pc >= 2
          then others[u].(secretGone := true) else others[u]
      else others;
    var saved :=
      if CaptureOf(t.kind).Some? && CaptureOf(t.kind).value in s.captures
      then s.saved + [Saved(s.captures[CaptureOf(t.kind).value], s.db, t.secretGone)] else s.saved;
    State(Apply(s.db, t.kind), marked, s.captures, saved)
  }

  function Advance(s: State, me: int): State
    requires me in s.txns
  {
    s.(txns := s.txns[me := s.txns[me].(pc := s.txns[me].pc + 1)])
  }

  function RollBack(s: State, me: int): State {
    s.(txns := s.txns - {me})
  }

  /** A generation taken without setting keys or secret never matches. */
  predicate Usable(c: Capture) {
    c.keys != [] && c.secretKey != ""
  }

  ghost function NextOp(s: State, me: int): State
    requires WellFormed(s) && me in s.txns
  {
    var t := s.txns[me];
    match Program(t.kind)[t.pc]
    case Acquire(l) => if Free(s, l, me) then Advance(s, me) else s
    case CheckConfig =>
      if CaptureOf(t.kind).Some? && CaptureOf(t.kind).value in s.captures then
        var c := s.captures[CaptureOf(t.kind).value];
        if Usable(c) && ConfigStream(c.keys, s.db.settings, Encrypted(s.db, c.secretKey)) == c.configFingerprint
            then Advance(s, me) else RollBack(s, me)
      else RollBack(s, me)
    case CheckInventory =>
      if CaptureOf(t.kind).Some? && CaptureOf(t.kind).value in s.captures
          && InventoryStream(s.db.inventory) == s.captures[CaptureOf(t.kind).value].inventoryFingerprint
      then Advance(s, me) else RollBack(s, me)
    case Commit => if Representable(Apply(s.db, t.kind)) then CommitTxn(s, me) else RollBack(s, me)
  }

  ghost function Step(s: State, e: Event): State
    requires WellFormed(s)
    ensures WellFormed(Step(s, e))
  {
    match e
    case Take(c, keys, secretKey) =>
      if c in s.captures || !(forall k | k in keys :: |k| < WORD) then s
        else s.(captures := s.captures[c := TakeCapture(s.db, keys, secretKey)])
    case Begin(t, kind) => if t in s.txns then s else s.(txns := s.txns[t := Txn(kind, 0, false)])
    case Next(t) => if t in s.txns then NextOp(s, t) else s
    case Abort(t) => RollBack(s, t)
  }

  ghost function Run(s: State, events: seq<Event>): State
    requires WellFormed(s)
    ensures WellFormed(Run(s, events))
    decreases |events|
  {
    if events == [] then s else Run(Step(s, events[0]), events[1..])
  }

  // ---------- invariants ----------

  ghost predicate Exclusive(s: State)
    requires WellFormed(s)
  {
    forall t, u | t in s.txns && u in s.txns && t != u :: Held(s.txns[t]) !! Held(s.txns[u])
  }

  /** A capture's fingerprints are those of the state it was taken from. */
  ghost predicate CaptureOk(g: Capture) {
    && (forall k | k in g.keys :: |k| < WORD) && Fits(g.settings) && |g.encrypted| < WORD
    && (forall r | r in g.inventory :: RowFits(r))
    && g.configFingerprint == ConfigStream(g.keys, g.settings, g.encrypted)
    && g.inventoryFingerprint == InventoryStream(g.inventory)
  }

  ghost predicate CapturesOk(s: State) {
    forall c | c in s.captures :: CaptureOk(s.captures[c])
  }

  ghost predicate ConfigCurrent(db: Database, c: Capture, secretGone: bool) {
    && Restrict(db.settings, c.keys) == Restrict(c.settings, c.keys)
    && (Encrypted(db, c.secretKey) == c.encrypted <==> !secretGone)
    && (secretGone ==> c.secretKey !in db.secrets && c.encrypted != [])
  }

  ghost predicate InventoryCurrent(db: Database, c: Capture) {
    AllNullsAsEmpty(db.inventory) == AllNullsAsEmpty(c.inventory)
  }

  /** What a guarded transaction has checked still holds of the database. */
  ghost predicate Guarded(s: State, t: Txn) {
    CaptureOf(t.kind).Some? ==>
      && (t.pc < 2 ==> !t.secretGone)
      && (t.pc >= 2 ==> CaptureOf(t.kind).value in s.captures
                        && ConfigCurrent(s.db, s.captures[CaptureOf(t.kind).value], t.secretGone))
      && (t.pc >= 4 ==> InventoryCurrent(s.db, s.captures[CaptureOf(t.kind).value]))
  }

  ghost predicate SavedOk(v: Saved) {
    ConfigCurrent(v.at, v.capture, v.secretGone) && InventoryCurrent(v.at, v.capture)
  }

  ghost predicate Inv(s: State) {
    && WellFormed(s) && Exclusive(s) && CapturesOk(s) && Representable(s.db)
    && (forall t | t in s.txns :: Guarded(s, s.txns[t]))
    && (forall v | v in s.saved :: SavedOk(v))
  }

  // ---------- locks ----------

  lemma HeldGrows(t: Txn)
    requires t.pc < |Program(t.kind)|
    ensures Held(t.(pc := t.pc + 1))
            == Held(t) + if Program(t.kind)[t.pc].Acquire? then {Program(t.kind)[t.pc].lock} else {}
  {
    var p := Program(t.kind);
    forall l | l in Held(t.(pc := t.pc + 1))
      ensures l in Held(t) || (p[t.pc].Acquire? && l == p[t.pc].lock)
    {
      var i :| 0 <= i < t.pc + 1 && p[i].Acquire? && p[i].lock == l;
    }
    if p[t.pc].Acquire? {
      assert p[t.pc].lock in Held(t.(pc := t.pc + 1));
    }
  }

  /** Each program asks for locks in strictly increasing rank. */
  lemma Ascending(k: Kind, i: nat, j: nat)
    requires i < j < |Program(k)| && Program(k)[i].Acquire? && Program(k)[j].Acquire?
    ensures Rank(Program(k)[i].lock) < Rank(Program(k)[j].lock)
  {
  }

  lemma ExclusiveAdvances(s: State, me: int)
    requires WellFormed(s) && Exclusive(s) && me in s.txns && s.txns[me].pc + 1 < |Program(s.txns[me].kind)|
    requires Program(s.txns[me].kind)[s.txns[me].pc].Acquire?
            ==> Free(s, Program(s.txns[me].kind)[s.txns[me].pc].lock, me)
    ensures WellFormed(Advance(s, me)) && Exclusive(Advance(s, me))
  {
    HeldGrows(s.txns[me]);
    var u := Advance(s, me);
    forall a, b | a in u.txns && b in u.txns && a != b
      ensures Held(u.txns[a]) !! Held(u.txns[b])
    {
      assert Held(s.txns[a]) !! Held(s.txns[b]);
    }
  }

  /** Who writes settings, secrets or inventory at commit, and under which lock. */
  lemma WritersHoldTheLock(t: Txn, db: Database)
    requires t.pc < |Program(t.kind)| && Program(t.kind)[t.pc] == Commit
    ensures t.kind.UpdateSettings? ==> SettingsLock in Held(t)
    ensures Apply(db, t.kind).inventory != db.inventory ==> InventoryLock in Held(t)
    ensures Apply(db, t.kind).settings != db.settings ==> t.kind.UpdateSettings?
    ensures Apply(db, t.kind).secrets != db.secrets ==> t.kind.UpdateSettings? || t.kind.DeleteSecret?
  {
    var p := Program(t.kind);
    match t.kind {
      case UpdateSettings(_, _) => assert p[0] == Acquire(SettingsLock);
      case CreateHub(_) => assert p[0] == Acquire(InventoryLock);
      case UpdateHub(_, _) => assert p[0] == Acquire(InventoryLock);
      case DeleteHub(_, _) => assert p[1] == Acquire(InventoryLock);
      case SyncHub(_, _) => assert p[0] == Acquire(InventoryLock);
      case UpdatePods(_, _) => assert p[2] == Acquire(InventoryLock);
      case _ =>
    }
  }

  lemma GuardsHoldTheirLocks(t: Txn)
    requires t.pc <= |Program(t.kind)| && CaptureOf(t.kind).Some?
    ensures t.pc >= 2 ==> SettingsLock in Held(t)
    ensures t.pc >= 4 ==> InventoryLock in Held(t)
  {
    assert Program(t.kind)[0] == Acquire(SettingsLock) && Program(t.kind)[2] == Acquire(InventoryLock);
  }

  // ---------- steps ----------

  lemma AdvanceKeeps(s: State, me: int)
    requires Inv(s) && me in s.txns && s.txns[me].pc + 1 < |Program(s.txns[me].kind)|
    requires Program(s.txns[me].kind)[s.txns[me].pc].Acquire?
            ==> Free(s, Program(s.txns[me].kind)[s.txns[me].pc].lock, me)
    requires Guarded(s, s.txns[me].(pc := s.txns[me].pc + 1))
    ensures Inv(Advance(s, me))
  {
    ExclusiveAdvances(s, me);
  }

  lemma CheckConfigKeeps(s: State, me: int)
    requires Inv(s) && me in s.txns && Program(s.txns[me].kind)[s.txns[me].pc] == CheckConfig
    ensures Inv(NextOp(s, me))
  {
    var t := s.txns[me];
    if NextOp(s, me) == Advance(s, me) {
      var c := s.captures[CaptureOf(t.kind).value];
      ConfigGenerationIsInjective(c.keys, s.db.settings, Encrypted(s.db, c.secretKey), c.settings, c.encrypted);
      AdvanceKeeps(s, me);
    } else {
      RollBackKeeps(s, me);
    }
  }

  lemma InventoryMatch(db: Database, c: Capture)
    requires Representable(db) && (forall r | r in c.inventory :: RowFits(r))
    requires InventoryStream(db.inventory) == InventoryStream(c.inventory)
    ensures InventoryCurrent(db, c)
  {
    InventoryGenerationIsInjective(db.inventory, c.inventory);
  }

  lemma GuardedAfterInventory(s: State, t: Txn)
    requires Guarded(s, t) && t.pc < |Program(t.kind)| && Program(t.kind)[t.pc] == CheckInventory
    requires CaptureOf(t.kind).Some? && CaptureOf(t.kind).value in s.captures
            && InventoryCurrent(s.db, s.captures[CaptureOf(t.kind).value])
    ensures Guarded(s, t.(pc := t.pc + 1))
  {
  }

  lemma CheckInventoryKeeps(s: State, me: int)
    requires Inv(s) && me in s.txns && Program(s.txns[me].kind)[s.txns[me].pc] == CheckInventory
    ensures Inv(NextOp(s, me))
  {
    var t := s.txns[me];
    if NextOp(s, me) == Advance(s, me) {
      var c := s.captures[CaptureOf(t.kind).value];
      InventoryMatch(s.db, c);
      GuardedAfterInventory(s, t);
      AdvanceKeeps(s, me);
    } else {
      RollBackKeeps(s, me);
    }
  }

  /** A lock is never the step that leaves a check behind. */
  lemma GuardedAfterAcquire(s: State, t: Txn)
    requires Guarded(s, t) && t.pc < |Program(t.kind)| && Program(t.kind)[t.pc].Acquire?
    ensures Guarded(s, t.(pc := t.pc + 1)) && t.pc + 1 < |Program(t.kind)|
  {
    if CaptureOf(t.kind).Some? {
      assert Program(t.kind)[1] == CheckConfig && Program(t.kind)[3] == CheckInventory;
    }
  }

  lemma AcquireKeeps(s: State, me: int)
    requires Inv(s) && me in s.txns && Program(s.txns[me].kind)[s.txns[me].pc].Acquire?
    ensures Inv(NextOp(s, me))
  {
    var t := s.txns[me];
    if Free(s, Program(t.kind)[t.pc].lock, me) {
      GuardedAfterAcquire(s, t);
      AdvanceKeeps(s, me);
    }
  }

  lemma RollBackKeeps(s: State, me: int)
    requires Inv(s)
    ensures Inv(RollBack(s, me))
  {
  }

  /** Another transaction's commit leaves what a guarded one has checked. */
  lemma CommitLeavesGuards(s: State, me: int, other: int)
    requires Inv(s) && me in s.txns && other in s.txns && other != me
            && Program(s.txns[me].kind)[s.txns[me].pc] == Commit
    requires Representable(Apply(s.db, s.txns[me].kind))
    ensures other in CommitTxn(s, me).txns && Guarded(CommitTxn(s, me), CommitTxn(s, me).txns[other])
  {
    var t, o, u := s.txns[me], s.txns[other], CommitTxn(s, me);
    if CaptureOf(o.kind).Some? {
      WritersHoldTheLock(t, s.db);
      GuardsHoldTheirLocks(o);
      assert Held(t) !! Held(o);
      if o.pc >= 2 {
        assert Guarded(s, o);
        SecretsUnderGuard(s, me, other);
      }
    }
  }

  lemma SecretsUnderGuard(s: State, me: int, other: int)
    requires me in s.txns && other in s.txns && other != me && !s.txns[me].kind.UpdateSettings?
    requires CaptureOf(s.txns[other].kind).Some? && s.txns[other].pc >= 2 && Guarded(s, s.txns[other])
            && Representable(s.db)
    ensures var o := CommitTxn(s, me).txns[other];
            ConfigCurrent(Apply(s.db, s.txns[me].kind), s.captures[CaptureOf(o.kind).value], o.secretGone)
  {
  }

  lemma CommitKeeps(s: State, me: int)
    requires Inv(s) && me in s.txns && Program(s.txns[me].kind)[s.txns[me].pc] == Commit
    ensures Inv(NextOp(s, me))
  {
    if Representable(Apply(s.db, s.txns[me].kind)) {
      var u := CommitTxn(s, me);
      assert NextOp(s, me) == u;
      forall o | o in u.txns
        ensures Guarded(u, u.txns[o])
      {
        CommitLeavesGuards(s, me, o);
      }
      assert Guarded(s, s.txns[me]);
      CommitIsLast(s.txns[me]);
      forall a, b | a in u.txns && b in u.txns && a != b
        ensures Held(u.txns[a]) !! Held(u.txns[b])
      {
        assert Held(s.txns[a]) !! Held(s.txns[b]);
      }
    } else {
      RollBackKeeps(s, me);
    }
  }

  lemma CommitIsLast(t: Txn)
    requires t.pc < |Program(t.kind)| && Program(t.kind)[t.pc] == Commit
    ensures CaptureOf(t.kind).Some? ==> t.pc >= 4
  {
  }

  lemma StepKeeps(s: State, e: Event)
    requires Inv(s)
    ensures Inv(Step(s, e))
  {
    match e
    case Take(c, keys, secretKey) => TakeKeeps(s, c, keys, secretKey);
    case Begin(t, kind) => BeginKeeps(s, t, kind);
    case Next(t) =>
      if t in s.txns {
        match Program(s.txns[t].kind)[s.txns[t].pc]
        case Acquire(_) => AcquireKeeps(s, t);
        case CheckConfig => CheckConfigKeeps(s, t);
        case CheckInventory => CheckInventoryKeeps(s, t);
        case Commit => CommitKeeps(s, t);
      }
    case Abort(t) => RollBackKeeps(s, t);
  }

  lemma TakeKeeps(s: State, c: int, keys: seq<string>, secretKey: string)
    requires Inv(s)
    ensures Inv(Step(s, Take(c, keys, secretKey)))
  {
  }

  lemma BeginKeeps(s: State, t: int, kind: Kind)
    requires Inv(s)
    ensures Inv(Step(s, Begin(t, kind)))
  {
    assert Held(Txn(kind, 0, false)) == {};
  }

  lemma {:induction false} RunKeeps(s: State, events: seq<Event>)
    requires Inv(s)
    ensures Inv(Run(s, events))
    decreases |events|
  {
    if events != [] {
      StepKeeps(s, events[0]);
      RunKeeps(Step(s, events[0]), events[1..]);
    }
  }

  function Initial(db: Database): State {
    State(db, map[], map[], [])
  }

  // ---------- main results ----------

  /** A metric, LLM or Pod batch is only saved while the provider settings and the
      Hub/server inventory are those its request was made under; the secret is the
      same too, exactly unless a DeleteSecret slipped in after the check. */
  lemma GuardedSavesAreCurrent(db: Database, events: seq<Event>, v: Saved)
    requires Representable(db) && v in Run(Initial(db), events).saved
    ensures Restrict(v.at.settings, v.capture.keys) == Restrict(v.capture.settings, v.capture.keys)
    ensures AllNullsAsEmpty(v.at.inventory) == AllNullsAsEmpty(v.capture.inventory)
    ensures Encrypted(v.at, v.capture.secretKey) == v.capture.encrypted <==> !v.secretGone
  {
    RunKeeps(Initial(db), events);
    assert SavedOk(v);
  }

  ghost predicate OfSecret(s: State, k: Kind, key: string) {
    CaptureOf(k).Some? && CaptureOf(k).value in s.captures && s.captures[CaptureOf(k).value].secretKey == key
  }

  /** Nobody is deleting the secret, and no transaction or batch has lost it. */
  ghost predicate SecretKept(s: State, key: string) {
    && (forall t | t in s.txns :: s.txns[t].kind != DeleteSecret(key))
    && (forall t | t in s.txns && s.txns[t].secretGone ::
          CaptureOf(s.txns[t].kind).Some? && CaptureOf(s.txns[t].kind).value in s.captures
              && !OfSecret(s, s.txns[t].kind, key))
    && (forall v | v in s.saved && v.capture.secretKey == key :: !v.secretGone)
  }

  lemma CommitKeepsSecret(s: State, me: int, key: string)
    requires WellFormed(s) && me in s.txns && SecretKept(s, key)
    ensures SecretKept(CommitTxn(s, me), key)
  {
    var u := CommitTxn(s, me);
    forall t | t in u.txns && u.txns[t].secretGone
      ensures CaptureOf(u.txns[t].kind).Some? && CaptureOf(u.txns[t].kind).value in u.captures
              && !OfSecret(u, u.txns[t].kind, key)
    {
      assert s.txns[t].kind == u.txns[t].kind;
    }
  }

  lemma NextKeepsSecret(s: State, me: int, key: string)
    requires WellFormed(s) && me in s.txns && SecretKept(s, key)
    ensures SecretKept(NextOp(s, me), key)
  {
    if NextOp(s, me) == Advance(s, me) || NextOp(s, me) == RollBack(s, me) || NextOp(s, me) == s {
    } else {
      CommitKeepsSecret(s, me, key);
    }
  }

  lemma StepKeepsSecret(s: State, e: Event, key: string)
    requires WellFormed(s) && SecretKept(s, key)
    requires e.Begin? ==> e.kind != DeleteSecret(key)
    ensures SecretKept(Step(s, e), key)
  {
    if e.Next? && e.txn in s.txns {
      NextKeepsSecret(s, e.txn, key);
    }
  }

  lemma {:induction false} RunKeepsSecret(s: State, events: seq<Event>, key: string)
    requires WellFormed(s) && SecretKept(s, key)
    requires forall e | e in events && e.Begin? :: e.kind != DeleteSecret(key)
    ensures SecretKept(Run(s, events), key)
    decreases |events|
  {
    if events != [] {
      assert events[0] in events && forall e | e in events[1..] :: e in events;
      StepKeepsSecret(s, events[0], key);
      RunKeepsSecret(Step(s, events[0]), events[1..], key);
    }
  }

  /** In a run that never begins to delete the secret, as no handler does, a
      saved batch's secret is the one it was requested with. */
  lemma GuardedSavesKeepTheSecret(db: Database, events: seq<Event>, v: Saved)
    requires Representable(db) && v in Run(Initial(db), events).saved
    requires forall e | e in events && e.Begin? :: e.kind != DeleteSecret(v.capture.secretKey)
    ensures Encrypted(v.at, v.capture.secretKey) == v.capture.encrypted
  {
    GuardedSavesAreCurrent(db, events, v);
    RunKeepsSecret(Initial(db), events, v.capture.secretKey);
  }

  ghost predicate WaitsFor(s: State, t: int, u: int)
    requires WellFormed(s)
  {
    t in s.txns && u in s.txns && t != u && Wanted(s.txns[t]).Some? && Wanted(s.txns[t]).value in Held(s.txns[u])
  }

  function Wanted(t: Txn): Option<Lock>
    requires t.pc < |Program(t.kind)|
  {
    match Program(t.kind)[t.pc] case Acquire(l) => Some(l) case _ => None
  }

  predicate Waiting(s: State, t: int)
    requires WellFormed(s)
  {
    t in s.txns && Wanted(s.txns[t]).Some?
  }

  function WantedRank(s: State, t: int): nat
    requires WellFormed(s) && Waiting(s, t)
  {
    Rank(Wanted(s.txns[t]).value)
  }

  /** A transaction wants a lock of higher rank than any it holds. */
  lemma WantsAboveHeld(t: Txn, l: Lock)
    requires t.pc < |Program(t.kind)| && Wanted(t).Some? && l in Held(t)
    ensures Rank(l) < Rank(Wanted(t).value)
  {
    var i :| 0 <= i < t.pc && Program(t.kind)[i].Acquire? && Program(t.kind)[i].lock == l;
    Ascending(t.kind, i, t.pc);
  }

  ghost predicate Chain(s: State, c: seq<int>)
    requires WellFormed(s)
  {
    forall i | 0 <= i < |c| - 1 :: WaitsFor(s, c[i], c[i + 1])
  }

  lemma {:induction false} ChainClimbs(s: State, c: seq<int>)
    requires WellFormed(s) && |c| >= 2 && Chain(s, c) && Waiting(s, c[|c| - 1])
    ensures Waiting(s, c[0]) && WantedRank(s, c[0]) < WantedRank(s, c[|c| - 1])
  {
    assert WaitsFor(s, c[0], c[1]);
    if |c| == 2 {
      WantsAboveHeld(s.txns[c[1]], Wanted(s.txns[c[0]]).value);
    } else {
      assert forall i | 0 <= i < |c[1..]| - 1 :: WaitsFor(s, c[1..][i], c[1..][i + 1]) by {
        forall i | 0 <= i < |c[1..]| - 1
          ensures WaitsFor(s, c[1..][i], c[1..][i + 1])
        {
          assert WaitsFor(s, c[i + 1], c[i + 2]);
        }
      }
      ChainClimbs(s, c[1..]);
      WantsAboveHeld(s.txns[c[1]], Wanted(s.txns[c[0]]).value);
    }
  }

  /** No reachable state contains a circular wait. */
  lemma NoCircularWait(db: Database, events: seq<Event>, c: seq<int>)
    requires |c| >= 2 && c[0] == c[|c| - 1]
    ensures !Chain(Run(Initial(db), events), c)
  {
    var s := Run(Initial(db), events);
    if Chain(s, c) {
      assert WaitsFor(s, c[0], c[1]);
      ChainClimbs(s, c);
    }
  }

  ghost predicate Blocked(s: State, t: int)
    requires WellFormed(s) && t in s.txns
  {
    Wanted(s.txns[t]).Some? && !Free(s, Wanted(s.txns[t]).value, t)
  }

  /** From any transaction, the chain of lock holders ends at one that can proceed. */
  lemma {:induction false} SomeoneCanProceed(s: State, t: int) returns (u: int)
    requires WellFormed(s) && t in s.txns
    ensures u in s.txns && !Blocked(s, u)
    decreases 5 - if Wanted(s.txns[t]).Some? then Rank(Wanted(s.txns[t]).value) else 5
  {
    u := t;
    if Blocked(s, t) {
      var l := Wanted(s.txns[t]).value;
      var holder :| holder in s.txns && holder != t && l in Held(s.txns[holder]);
      if Wanted(s.txns[holder]).Some? {
        WantsAboveHeld(s.txns[holder], l);
        u := SomeoneCanProceed(s, holder);
      } else {
        u := holder;
      }
    }
  }

  ghost function Saving(db: Database, c: Capture, pc: nat, gone: bool): State {
    State(db, map[1 := Txn(SaveBatch(0), pc, gone)], map[0 := c], [])
  }

  lemma SavingAdvances(db: Database, c: Capture, pc: nat, gone: bool)
    ensures Advance(Saving(db, c, pc, gone), 1) == Saving(db, c, pc + 1, gone)
  {
  }

  lemma SavingProgram()
    ensures Program(SaveBatch(0))[1] == CheckConfig && Program(SaveBatch(0))[3] == CheckInventory
  {
  }

  lemma Alone(db: Database, c: Capture, pc: nat, gone: bool)
    requires pc == 0 || pc == 2 || pc == 4
    ensures Step(Saving(db, c, pc, gone), Next(1)) == Saving(db, c, pc + 1, gone)
  {
    SavingAdvances(db, c, pc, gone);
    assert Free(Saving(db, c, pc, gone), Program(SaveBatch(0))[pc].lock, 1);
  }

  lemma InventoryNext(s: State, me: int, capture: int)
    requires WellFormed(s) && me in s.txns && Program(s.txns[me].kind)[s.txns[me].pc] == CheckInventory
    requires CaptureOf(s.txns[me].kind) == Some(capture) && capture in s.captures
    requires InventoryStream(s.db.inventory) == s.captures[capture].inventoryFingerprint
    ensures Step(s, Next(me)) == Advance(s, me)
  {
  }

  lemma ConfigNext(s: State, me: int, capture: int)
    requires WellFormed(s) && me in s.txns && Program(s.txns[me].kind)[s.txns[me].pc] == CheckConfig
    requires CaptureOf(s.txns[me].kind) == Some(capture) && capture in s.captures
    requires var c := s.captures[capture];
             && Usable(c)
             && ConfigStream(c.keys, s.db.settings, Encrypted(s.db, c.secretKey)) == c.configFingerprint
    ensures Step(s, Next(me)) == Advance(s, me)
  {
  }

  lemma ConfigCheckPasses(db: Database, c: Capture)
    requires Usable(c) && ConfigStream(c.keys, db.settings, Encrypted(db, c.secretKey)) == c.configFingerprint
    ensures Step(Saving(db, c, 1, false), Next(1)) == Saving(db, c, 2, false)
  {
    SavingProgram();
    ConfigNext(Saving(db, c, 1, false), 1, 0);
    SavingAdvances(db, c, 1, false);
  }

  lemma InventoryCheckPasses(db: Database, c: Capture, gone: bool)
    requires InventoryStream(db.inventory) == c.inventoryFingerprint
    ensures Step(Saving(db, c, 3, gone), Next(1)) == Saving(db, c, 4, gone)
  {
    SavingProgram();
    InventoryNext(Saving(db, c, 3, gone), 1, 0);
    SavingAdvances(db, c, 3, gone);
  }

  lemma CommitSaves(db: Database, c: Capture, gone: bool)
    requires Representable(db)
    ensures Step(Saving(db, c, 5, gone), Next(1)).saved == [Saved(c, db, gone)]
  {
    assert NextOp(Saving(db, c, 5, gone), 1) == CommitTxn(Saving(db, c, 5, gone), 1);
  }

  lemma DeletionMarks(db: Database, c: Capture)
    requires Representable(db) && c.secretKey in db.secrets
    ensures var both := Saving(db, c, 2, false).(txns := map[1 := Txn(SaveBatch(0), 2, false),
                                                             2 := Txn(DeleteSecret(c.secretKey), 0, false)]);
            && Step(Saving(db, c, 2, false), Begin(2, DeleteSecret(c.secretKey))) == both
            && Step(both, Next(2)) == Saving(db.(secrets := db.secrets - {c.secretKey}), c, 2, true)
  {
    var both := Saving(db, c, 2, false).(txns := map[1 := Txn(SaveBatch(0), 2, false),
                                                     2 := Txn(DeleteSecret(c.secretKey), 0, false)]);
    assert both.txns - {2} == map[1 := Txn(SaveBatch(0), 2, false)];
    assert CommitTxn(both, 2).txns == map[1 := Txn(SaveBatch(0), 2, true)];
    assert Representable(Apply(db, DeleteSecret(c.secretKey)));
  }

  lemma RunAppends(s: State, a: seq<Event>, b: seq<Event>)
    requires WellFormed(s)
    ensures Run(s, a + b) == Run(Run(s, a), b)
    decreases |a|
  {
    if a == [] {
      assert a + b == b;
    } else {
      assert (a + b)[1..] == a[1..] + b;
      RunAppends(Step(s, a[0]), a[1..], b);
    }
  }

  lemma RunTwo(s: State, a: Event, b: Event)
    requires WellFormed(s)
    ensures Run(s, [a, b]) == Step(Step(s, a), b)
  {
    assert [a, b][1..] == [b] && [b][1..] == [];
    assert Run(Step(s, a), [b]) == Run(Step(Step(s, a), b), []);
  }

  ghost function Checked(keys: seq<string>, key: string): seq<Event> {
    [Take(0, keys, key), Begin(1, SaveBatch(0))] + ([Next(1), Next(1)] + [Begin(2, DeleteSecret(key)), Next(2)])
  }

  const LATE: seq<Event> := [Next(1), Next(1)] + [Next(1), Next(1)]

  lemma TakenAndBegun(db: Database, keys: seq<string>, key: string)
    requires forall k | k in keys :: |k| < WORD
    ensures Run(Initial(db), [Take(0, keys, key), Begin(1, SaveBatch(0))])
            == Saving(db, TakeCapture(db, keys, key), 0, false)
  {
    RunTwo(Initial(db), Take(0, keys, key), Begin(1, SaveBatch(0)));
  }

  lemma LockedAndChecked(db: Database, c: Capture)
    requires Usable(c) && ConfigStream(c.keys, db.settings, Encrypted(db, c.secretKey)) == c.configFingerprint
    ensures Run(Saving(db, c, 0, false), [Next(1), Next(1)]) == Saving(db, c, 2, false)
  {
    RunTwo(Saving(db, c, 0, false), Next(1), Next(1));
    Alone(db, c, 0, false);
    ConfigCheckPasses(db, c);
  }

  lemma DeletedMeanwhile(db: Database, c: Capture)
    requires Representable(db) && c.secretKey in db.secrets
    ensures Run(Saving(db, c, 2, false), [Begin(2, DeleteSecret(c.secretKey)), Next(2)])
            == Saving(db.(secrets := db.secrets - {c.secretKey}), c, 2, true)
  {
    RunTwo(Saving(db, c, 2, false), Begin(2, DeleteSecret(c.secretKey)), Next(2));
    DeletionMarks(db, c);
  }

  lemma CheckedThenDeleted(db: Database, keys: seq<string>, key: string)
    requires Representable(db) && key in db.secrets && key != "" && keys != [] && forall k | k in keys :: |k| < WORD
    ensures Run(Initial(db), Checked(keys, key)) == Saving(db.(secrets := db.secrets - {key}),
                                                           TakeCapture(db, keys, key), 2, true)
  {
    var c := TakeCapture(db, keys, key);
    var first, second, third := [Take(0, keys, key), Begin(1, SaveBatch(0))], [Next(1), Next(1)],
        [Begin(2, DeleteSecret(key)), Next(2)];
    RunAppends(Initial(db), first, second + third);
    TakenAndBegun(db, keys, key);
    RunAppends(Saving(db, c, 0, false), second, third);
    LockedAndChecked(db, c);
    DeletedMeanwhile(db, c);
  }

  lemma InventoryLockedAndChecked(db: Database, c: Capture, gone: bool)
    requires InventoryStream(db.inventory) == c.inventoryFingerprint
    ensures Run(Saving(db, c, 2, gone), [Next(1), Next(1)]) == Saving(db, c, 4, gone)
  {
    RunTwo(Saving(db, c, 2, gone), Next(1), Next(1));
    Alone(db, c, 2, gone);
    InventoryCheckPasses(db, c, gone);
  }

  lemma SavedAnyway(db: Database, c: Capture, gone: bool)
    requires Representable(db) && InventoryStream(db.inventory) == c.inventoryFingerprint
    ensures Run(Saving(db, c, 2, gone), LATE).saved == [Saved(c, db, gone)]
  {
    RunAppends(Saving(db, c, 2, gone), [Next(1), Next(1)], [Next(1), Next(1)]);
    InventoryLockedAndChecked(db, c, gone);
    RunTwo(Saving(db, c, 4, gone), Next(1), Next(1));
    Alone(db, c, 4, gone);
    CommitSaves(db, c, gone);
  }

  /** A batch fetched with a usable generation is saved when nothing interferes. */
  lemma UndisturbedBatchIsSaved(db: Database, keys: seq<string>, key: string)
    requires Representable(db) && key != "" && keys != [] && forall k | k in keys :: |k| < WORD
    ensures var first := [Take(0, keys, key), Begin(1, SaveBatch(0))];
            Run(Initial(db), first + ([Next(1), Next(1)] + LATE)).saved
            == [Saved(TakeCapture(db, keys, key), db, false)]
  {
    var c, first := TakeCapture(db, keys, key), [Take(0, keys, key), Begin(1, SaveBatch(0))];
    RunAppends(Initial(db), first, [Next(1), Next(1)] + LATE);
    TakenAndBegun(db, keys, key);
    RunAppends(Saving(db, c, 0, false), [Next(1), Next(1)], LATE);
    LockedAndChecked(db, c);
    SavedAnyway(db, c, false);
  }

  /** The rows a transaction leaves in the inventory, if it writes any. */
  function NewInventory(k: Kind): Option<seq<InventoryRow>> {
    match k
    case CreateHub(rows) => Some(rows)
    case UpdateHub(_, rows) => Some(rows)
    case DeleteHub(_, rows) => Some(rows)
    case SyncHub(_, rows) => Some(rows)
    case UpdatePods(_, rows) => Some(rows)
    case _ => None
  }

  /** A commit makes the transaction's own writes visible and no others, and frees
      its locks. */
  lemma CommitsLand(s: State, me: int)
    requires WellFormed(s) && me in s.txns && Program(s.txns[me].kind)[s.txns[me].pc] == Commit
    requires Representable(Apply(s.db, s.txns[me].kind))
    ensures var t, k := Step(s, Next(me)), s.txns[me].kind;
            && t.txns.Keys == s.txns.Keys - {me} && t.captures == s.captures
            && t.db.inventory == (if NewInventory(k).Some? then NewInventory(k).value else s.db.inventory)
            && (k.UpdateSettings? ==>
                  && (forall x :: x in t.db.settings <==> x in s.db.settings || x in k.values)
                  && (forall x | x in t.db.settings ::
                        t.db.settings[x] == if x in k.values then k.values[x] else s.db.settings[x])
                  && (forall x :: x in t.db.secrets <==> x in s.db.secrets || x in k.newSecrets)
                  && (forall x | x in t.db.secrets ::
                        t.db.secrets[x] == if x in k.newSecrets then k.newSecrets[x] else s.db.secrets[x]))
            && (k.DeleteSecret? ==> t.db.settings == s.db.settings && t.db.secrets == s.db.secrets - {k.secretKey})
            && (!k.UpdateSettings? && !k.DeleteSecret? ==>
                  t.db.settings == s.db.settings && t.db.secrets == s.db.secrets)
  {
  }

  /** DeleteSecret takes no lock: whatever is stored, deleting the captured secret
      between the check and the commit lets the batch be saved although the
      credential it was fetched with is gone. */
  lemma DeleteSecretEscapesTheGuard(db: Database, keys: seq<string>, key: string)
    requires Representable(db) && key in db.secrets && key != "" && keys != [] && forall k | k in keys :: |k| < WORD
    ensures var s := Run(Initial(db), Checked(keys, key) + LATE);
            |s.saved| == 1 && s.saved[0].capture.encrypted == db.secrets[key] && key !in s.saved[0].at.secrets
  {
    CheckedThenDeleted(db, keys, key);
    RunAppends(Initial(db), Checked(keys, key), LATE);
    SavedAnyway(db.(secrets := db.secrets - {key}), TakeCapture(db, keys, key), true);
  }

  // ---------- lockAndMatchIntegrationGeneration ----------

  /** What it checks under the settings lock. */
  method MatchConfig(db: Database, expected: Capture) returns (current: bool)
    requires Representable(db) && CaptureOk(expected)
    ensures current <==> && Usable(expected) && Restrict(db.settings, expected.keys)
                         == Restrict(expected.settings, expected.keys)
                         && Encrypted(db, expected.secretKey) == expected.encrypted
  {
    if |expected.keys| == 0 || expected.secretKey == "" {
      return false;
    }
    var encrypted := Encrypted(db, expected.secretKey);
    var fingerprint := IntegrationConfigFingerprint(expected.keys, db.settings, encrypted);
    ConfigGenerationIsInjective(expected.keys, db.settings, encrypted, expected.settings, expected.encrypted);
    current := fingerprint == expected.configFingerprint;
  }

  /** What it checks under the inventory lock. */
  method MatchInventory(db: Database, expected: Capture) returns (current: bool)
    requires Representable(db) && CaptureOk(expected)
    ensures current <==> InventoryCurrent(db, expected)
  {
    var fingerprint := IntegrationInventoryFingerprint(db.inventory);
    InventoryGenerationIsInjective(db.inventory, expected.inventory);
    current := fingerprint == expected.inventoryFingerprint;
  }
}
