/**
 * Refresh-token rotation with reuse detection: internal/auth/service.go over
 * the statements of internal/dbgen/auth.sql.gen.go. It is the rotation
 * technique of section 4.14.2 of RFC 9700.
 *
 * A refresh reads its session row first and acts in a later transaction, so it
 * is two steps here, and any other step may run between them. A token stands
 * for its session row: digests are unique and never reissued.
 */
module Sessions {
  import opened Sums

  datatype Cause = Logout | LogoutAll | ReuseDetected | PasswordChanged | AdminRevoked | UserDeactivated | Lapsed

  datatype Reason = Rotated | Because(cause: Cause)

  /** `chain` names the login that started the chain: the id of its first session. */
  datatype Session = Session(
    user: int, chain: nat, parent: Option<nat>, counter: nat, expires: int, revoked: Option<Reason>)

  /** What a request that has read its row will do in its next statement. */
  datatype Intent =
    | Rotate(id: nat, row: Session)
    | Kill(chain: nat, cause: Cause)

  datatype ResetToken = ResetToken(user: int, expires: int, used: bool)

  datatype Db = Db(
    sessions: map<nat, Session>, nextSession: nat, intents: seq<Intent>,
    tokens: seq<ResetToken>, redeemed: seq<nat>)

  // ----- Statements ---------------------------------------------------------

  function Revoke(row: Session, reason: Reason): Session {
    if row.revoked.None? then row.(revoked := Some(reason)) else row
  }

  function RevokeSession(sessions: map<nat, Session>, id: nat, reason: Reason): map<nat, Session> {
    map i | i in sessions :: if i == id then Revoke(sessions[i], reason) else sessions[i]
  }

  function RevokeChain(sessions: map<nat, Session>, chain: nat, cause: Cause): map<nat, Session> {
    map i | i in sessions :: if sessions[i].chain == chain then Revoke(sessions[i], Because(cause)) else sessions[i]
  }

  function RevokeUser(sessions: map<nat, Session>, user: int, cause: Cause): map<nat, Session> {
    map i | i in sessions :: if sessions[i].user == user then Revoke(sessions[i], Because(cause)) else sessions[i]
  }

  /** A surviving row whose parent goes loses its pointer: ON DELETE SET NULL. */
  function Purge(sessions: map<nat, Session>, cutoff: int): map<nat, Session> {
    map i | i in sessions && sessions[i].expires >= cutoff ::
      var parent := sessions[i].parent;
      if parent.Some? && parent.value in sessions && sessions[parent.value].expires < cutoff
      then sessions[i].(parent := None) else sessions[i]
  }

  function InvalidateTokens(tokens: seq<ResetToken>, user: int): (after: seq<ResetToken>)
    ensures |after| == |tokens|
    ensures forall t :: 0 <= t < |tokens| ==>
              after[t] == if tokens[t].user == user then tokens[t].(used := true) else tokens[t]
  {
    seq(|tokens|, t requires 0 <= t < |tokens| => if tokens[t].user == user then tokens[t].(used := true) else tokens[t])
  }

  // ----- Steps --------------------------------------------------------------

  datatype RefreshAnswer = TokenInvalid | TokenRevoked | TokenExpired | AccountInactive | Proceed

  /** What Refresh decides from the row it reads. */
  function Inspect(row: Session, now: int, active: bool): RefreshAnswer {
    if row.revoked.Some? then TokenRevoked
    else if row.expires < now then TokenExpired
    else if !active then AccountInactive
    else Proceed
  }

  function IntentOf(id: nat, row: Session, now: int, active: bool): seq<Intent> {
    match Inspect(row, now, active)
    case TokenRevoked => if row.revoked == Some(Rotated) then [Kill(row.chain, ReuseDetected)] else []
    case AccountInactive => [Kill(row.chain, UserDeactivated)]
    case Proceed => [Rotate(id, row)]
    case _ => []
  }

  function Login(db: Db, user: int, expires: int): Db {
    var row := Session(user, db.nextSession, None, 0, expires, None);
    db.(sessions := db.sessions[db.nextSession := row], nextSession := db.nextSession + 1)
  }

  function Child(id: nat, row: Session): Session {
    Session(row.user, row.chain, Some(id), row.counter + 1, row.expires, None)
  }

  /** The rotation transaction: a compare-and-swap on the parent, then the child. */
  predicate CanRotate(db: Db, id: nat) {
    id in db.sessions && db.sessions[id].revoked.None?
  }

  function RotateWrite(db: Db, id: nat, row: Session): Db {
    if !CanRotate(db, id) then db
    else
      db.(sessions := RevokeSession(db.sessions, id, Rotated)[db.nextSession := Child(id, row)],
          nextSession := db.nextSession + 1)
  }

  function Act(db: Db, intent: Intent): Db {
    match intent
    case Rotate(id, row) => RotateWrite(db, id, row)
    case Kill(chain, cause) => db.(sessions := RevokeChain(db.sessions, chain, cause))
  }

  predicate CanRedeem(db: Db, token: nat, now: int) {
    token < |db.tokens| && !db.tokens[token].used && db.tokens[token].expires > now
  }

  function ResetPassword(db: Db, token: nat, now: int): Db {
    if !CanRedeem(db, token, now) then db
    else
      db.(tokens := db.tokens[token := db.tokens[token].(used := true)],
          sessions := RevokeUser(db.sessions, db.tokens[token].user, PasswordChanged),
          redeemed := db.redeemed + [token])
  }

  function ChangePassword(db: Db, user: int): Db {
    db.(sessions := RevokeUser(db.sessions, user, PasswordChanged), tokens := InvalidateTokens(db.tokens, user))
  }

  function RequestReset(db: Db, user: int, expires: int): Db {
    db.(tokens := InvalidateTokens(db.tokens, user) + [ResetToken(user, expires, false)])
  }

  datatype Event =
    | SignIn(user: int, expires: int)
    | ReadForRefresh(id: nat, now: int, active: bool)
    | ReadForLogout(id: nat, cause: Cause)
    | Resume(intent: nat)
    | EndSession(id: nat, cause: Cause)
    | EndUser(user: int, cause: Cause)
    | PurgeOld(cutoff: int)
    | Forgot(user: int, expires: int)
    | Redeem(token: nat, now: int)
    | NewPassword(user: int)

  /** An intent may be resumed at any later time, and even more than once. */
  function Step(db: Db, event: Event): Db {
    match event
    case SignIn(user, expires) => Login(db, user, expires)
    case ReadForRefresh(id, now, active) =>
      if id in db.sessions then db.(intents := db.intents + IntentOf(id, db.sessions[id], now, active)) else db
    case ReadForLogout(id, cause) =>
      if id in db.sessions then db.(intents := db.intents + [Kill(db.sessions[id].chain, cause)]) else db
    case Resume(intent) => if intent < |db.intents| then Act(db, db.intents[intent]) else db
    case EndSession(id, cause) => db.(sessions := RevokeSession(db.sessions, id, Because(cause)))
    case EndUser(user, cause) => db.(sessions := RevokeUser(db.sessions, user, cause))
    case PurgeOld(cutoff) => db.(sessions := Purge(db.sessions, cutoff))
    case Forgot(user, expires) => RequestReset(db, user, expires)
    case Redeem(token, now) => ResetPassword(db, token, now)
    case NewPassword(user) => ChangePassword(db, user)
  }

  function Run(db: Db, events: seq<Event>): Db {
    if events == [] then db else Step(Run(db, events[..|events| - 1]), events[|events| - 1])
  }

  function EmptyDb(): Db {
    Db(map[], 0, [], [], [])
  }

  // ----- The invariant ------------------------------------------------------

  predicate Begets(parent: Session, child: Session) {
    && child.chain == parent.chain
    && child.counter == parent.counter + 1
    && child.user == parent.user
    && child.expires == parent.expires
    && parent.revoked == Some(Rotated)
  }

  /** A session starts its chain, or hangs off the rotated session before it. */
  predicate Linked(sessions: map<nat, Session>, i: nat) {
    && i in sessions
    && var row := sessions[i];
    && (if row.parent.None? then row.counter == 0 && row.chain == i
        else row.parent.value < i && row.parent.value in sessions && Begets(sessions[row.parent.value], row))
    && row.chain in sessions
    && row.expires == sessions[row.chain].expires
    && row.user == sessions[row.chain].user
  }

  ghost predicate AllLinked(sessions: map<nat, Session>) {
    forall i {:trigger Linked(sessions, i)} :: i in sessions ==> Linked(sessions, i)
  }

  predicate SameDepth(sessions: map<nat, Session>, i: nat, j: nat) {
    && i in sessions && j in sessions
    && sessions[i].chain == sessions[j].chain && sessions[i].counter == sessions[j].counter
  }

  /** A chain never holds two sessions at the same depth. */
  ghost predicate Unforked(sessions: map<nat, Session>) {
    forall i, j {:trigger SameDepth(sessions, i, j)} :: SameDepth(sessions, i, j) ==> i == j
  }

  predicate IsParent(sessions: map<nat, Session>, i: nat) {
    exists j :: j in sessions && sessions[j].parent == Some(i)
  }

  ghost predicate RotatedHaveChildren(sessions: map<nat, Session>) {
    forall i {:trigger IsParent(sessions, i)} :: i in sessions && sessions[i].revoked == Some(Rotated) ==> IsParent(sessions, i)
  }

  ghost predicate Shape(sessions: map<nat, Session>) {
    AllLinked(sessions) && Unforked(sessions) && RotatedHaveChildren(sessions)
  }

  predicate SameOrigin(a: Session, b: Session) {
    a.user == b.user && a.chain == b.chain && a.parent == b.parent && a.counter == b.counter && a.expires == b.expires
  }

  /** What a request remembers of a row still holds of the row, unless it is gone. */
  predicate IntentValid(sessions: map<nat, Session>, next: nat, intent: Intent) {
    match intent
    case Rotate(id, row) => id < next && (id in sessions ==> SameOrigin(sessions[id], row))
    case Kill(chain, cause) => chain < next
  }

  ghost predicate IntentsValid(db: Db) {
    forall k :: 0 <= k < |db.intents| ==> IntentValid(db.sessions, db.nextSession, db.intents[k])
  }

  /** Ids and chain names have been allocated. */
  ghost predicate Allocated(sessions: map<nat, Session>, next: nat) {
    forall i :: i in sessions ==> i < next && sessions[i].chain < next
  }

  ghost predicate Inv(db: Db) {
    Allocated(db.sessions, db.nextSession) && Shape(db.sessions) && IntentsValid(db)
  }

  // ----- What each statement keeps ------------------------------------------

  /** A row that is revoked for a cause other than rotation keeps its place. */
  predicate Ended(before: Session, after: Session) {
    after == before || (before.revoked.None? && SameOrigin(after, before) && after.revoked.Some? && after.revoked != Some(Rotated))
  }

  predicate OnlyEnds(before: map<nat, Session>, after: map<nat, Session>) {
    after.Keys == before.Keys && forall i {:trigger Ended(before[i], after[i])} :: i in before ==> Ended(before[i], after[i])
  }

  lemma ParentStays(before: map<nat, Session>, after: map<nat, Session>, i: nat)
    requires IsParent(before, i)
    requires forall j :: j in before && before[j].parent == Some(i) ==> j in after && after[j].parent == Some(i)
    ensures IsParent(after, i)
  {
    var j :| j in before && before[j].parent == Some(i);
    assert after[j].parent == Some(i);
  }

  lemma EndingKeepsLinks(before: map<nat, Session>, after: map<nat, Session>, i: nat)
    requires OnlyEnds(before, after) && Linked(before, i)
    ensures Linked(after, i)
  {
    assert Ended(before[i], after[i]) && Ended(before[before[i].chain], after[before[i].chain]);
    if before[i].parent.Some? {
      assert Ended(before[before[i].parent.value], after[before[i].parent.value]);
    }
  }

  lemma EndingKeepsParents(before: map<nat, Session>, after: map<nat, Session>, i: nat)
    requires RotatedHaveChildren(before) && OnlyEnds(before, after) && i in before && after[i].revoked == Some(Rotated)
    ensures IsParent(after, i)
  {
    assert Ended(before[i], after[i]);
    assert IsParent(before, i);
    forall j | j in before && before[j].parent == Some(i)
      ensures after[j].parent == Some(i)
    {
      assert Ended(before[j], after[j]);
    }
    ParentStays(before, after, i);
  }

  lemma EndingKeepsDepths(before: map<nat, Session>, after: map<nat, Session>, i: nat, j: nat)
    requires OnlyEnds(before, after) && SameDepth(after, i, j)
    ensures SameDepth(before, i, j)
  {
    assert Ended(before[i], after[i]) && Ended(before[j], after[j]);
  }

  lemma EndingKeepsShape(before: map<nat, Session>, after: map<nat, Session>)
    requires Shape(before) && OnlyEnds(before, after)
    ensures Shape(after)
  {
    forall i | i in after
      ensures Linked(after, i)
    {
      assert Linked(before, i);
      EndingKeepsLinks(before, after, i);
    }
    forall i, j | SameDepth(after, i, j)
      ensures i == j
    {
      EndingKeepsDepths(before, after, i, j);
    }
    forall i | i in after && after[i].revoked == Some(Rotated)
      ensures IsParent(after, i)
    {
      EndingKeepsParents(before, after, i);
    }
  }

  lemma EndingKeeps(db: Db, after: Db)
    requires Inv(db) && OnlyEnds(db.sessions, after.sessions)
    requires after.nextSession == db.nextSession && after.intents == db.intents
    ensures Inv(after)
  {
    EndingKeepsShape(db.sessions, after.sessions);
    forall i | i in after.sessions
      ensures SameOrigin(after.sessions[i], db.sessions[i])
    {
      assert Ended(db.sessions[i], after.sessions[i]);
    }
    IntentsSurvive(db, after);
  }

  /** Intents outlive inserts of fresh ids and any change that keeps the rows' origins. */
  lemma IntentsSurvive(db: Db, after: Db)
    requires IntentsValid(db)
    requires after.nextSession >= db.nextSession && after.intents == db.intents
    requires forall i :: i in after.sessions && i < db.nextSession ==> i in db.sessions && SameOrigin(after.sessions[i], db.sessions[i])
    ensures IntentsValid(after)
  {
    forall k | 0 <= k < |after.intents|
      ensures IntentValid(after.sessions, after.nextSession, after.intents[k])
    {
      assert IntentValid(db.sessions, db.nextSession, db.intents[k]);
    }
  }

  lemma LoginKeepsShape(before: map<nat, Session>, id: nat, user: int, expires: int)
    requires Shape(before) && id !in before
    requires forall i :: i in before ==> before[i].chain != id
    ensures Shape(before[id := Session(user, id, None, 0, expires, None)])
  {
    var after := before[id := Session(user, id, None, 0, expires, None)];
    forall i | i in after
      ensures Linked(after, i)
    {
      if i in before {
        assert Linked(before, i);
      }
    }
    forall i, j | SameDepth(after, i, j)
      ensures i == j
    {
      assert i in before && j in before ==> SameDepth(before, i, j);
    }
    forall i | i in after && after[i].revoked == Some(Rotated)
      ensures IsParent(after, i)
    {
      assert IsParent(before, i);
      ParentStays(before, after, i);
    }
  }

  lemma LoginKeeps(db: Db, user: int, expires: int)
    requires Inv(db)
    ensures Inv(Login(db, user, expires))
  {
    LoginKeepsShape(db.sessions, db.nextSession, user, expires);
    IntentsSurvive(db, Login(db, user, expires));
  }

  /** The depth below a session that is not rotated is empty. */
  lemma NothingBelow(sessions: map<nat, Session>, id: nat, j: nat)
    requires AllLinked(sessions) && Unforked(sessions)
    requires id in sessions && j in sessions && sessions[id].revoked != Some(Rotated)
    ensures sessions[j].chain == sessions[id].chain ==> sessions[j].counter != sessions[id].counter + 1
  {
    assert Linked(sessions, j);
    if sessions[j].parent.Some? {
      var p := sessions[j].parent.value;
      assert SameDepth(sessions, p, id) <==> sessions[p].chain == sessions[id].chain && sessions[p].counter == sessions[id].counter;
    }
  }

  /** The tables after a committed rotation: one row marked, one row added. */
  lemma RotatedTables(db: Db, id: nat, row: Session)
    requires Allocated(db.sessions, db.nextSession) && CanRotate(db, id)
    ensures var after, child := RotateWrite(db, id, row).sessions, db.nextSession;
            && after.Keys == db.sessions.Keys + {child} && child !in db.sessions
            && after[child] == Child(id, row)
            && after[id] == db.sessions[id].(revoked := Some(Rotated))
            && forall i :: i in db.sessions && i != id ==> after[i] == db.sessions[i]
  {
  }

  /** `after` is `before` with `id` rotated into `child`. */
  predicate RotatedInto(before: map<nat, Session>, id: nat, child: nat, after: map<nat, Session>) {
    && id in before && before[id].revoked.None? && id < child && child !in before
    && after.Keys == before.Keys + {child}
    && after[child] == Child(id, before[id])
    && after[id] == before[id].(revoked := Some(Rotated))
    && forall i :: i in before && i != id ==> after[i] == before[i]
  }

  lemma RotateKeepsLinks(before: map<nat, Session>, id: nat, child: nat, after: map<nat, Session>, i: nat)
    requires RotatedInto(before, id, child, after) && Linked(before, id)
    requires i in before ==> Linked(before, i)
    requires i in after
    ensures Linked(after, i)
  {
  }

  lemma RotateKeepsDepths(before: map<nat, Session>, id: nat, child: nat, after: map<nat, Session>, i: nat, j: nat)
    requires AllLinked(before) && Unforked(before) && RotatedInto(before, id, child, after)
    requires SameDepth(after, i, j)
    ensures i == j
  {
    if i in before {
      NothingBelow(before, id, i);
    }
    if j in before {
      NothingBelow(before, id, j);
    }
    assert i in before && j in before ==> SameDepth(before, i, j);
  }

  lemma RotateKeepsShape(before: map<nat, Session>, id: nat, child: nat, after: map<nat, Session>)
    requires Shape(before) && RotatedInto(before, id, child, after)
    ensures Shape(after)
  {
    forall i | i in after
      ensures Linked(after, i)
    {
      assert Linked(before, id) && (i in before ==> Linked(before, i));
      RotateKeepsLinks(before, id, child, after, i);
    }
    forall i, j | SameDepth(after, i, j)
      ensures i == j
    {
      RotateKeepsDepths(before, id, child, after, i, j);
    }
    forall i | i in after && after[i].revoked == Some(Rotated)
      ensures IsParent(after, i)
    {
      RotateKeepsParents(before, id, child, after, i);
    }
  }

  lemma RotateKeepsParents(before: map<nat, Session>, id: nat, child: nat, after: map<nat, Session>, i: nat)
    requires RotatedHaveChildren(before) && RotatedInto(before, id, child, after)
    requires i in after && after[i].revoked == Some(Rotated)
    ensures IsParent(after, i)
  {
    if i == id {
      assert after[child].parent == Some(id);
    } else {
      assert IsParent(before, i);
      ParentStays(before, after, i);
    }
  }

  lemma RotateKeeps(db: Db, id: nat, row: Session)
    requires Inv(db) && CanRotate(db, id) && SameOrigin(db.sessions[id], row)
    ensures Inv(RotateWrite(db, id, row))
  {
    var after := RotateWrite(db, id, row);
    RotatedTables(db, id, row);
    RotateKeepsShape(db.sessions, id, db.nextSession, after.sessions);
    IntentsSurvive(db, after);
  }

  /** All members of a chain lapse together, so the purge orphans nobody. */
  lemma PurgedTables(sessions: map<nat, Session>, cutoff: int)
    requires AllLinked(sessions)
    ensures var after := Purge(sessions, cutoff);
            && (forall i :: i in after <==> i in sessions && sessions[i].expires >= cutoff)
            && (forall i :: i in after ==> after[i] == sessions[i])
  {
    forall i | i in sessions && sessions[i].expires >= cutoff
      ensures Purge(sessions, cutoff)[i] == sessions[i]
    {
      assert Linked(sessions, i);
    }
  }

  lemma PurgeKeepsShape(sessions: map<nat, Session>, cutoff: int)
    requires Shape(sessions)
    ensures Shape(Purge(sessions, cutoff))
  {
    var after := Purge(sessions, cutoff);
    PurgedTables(sessions, cutoff);
    forall i | i in after
      ensures Linked(after, i)
    {
      assert Linked(sessions, i);
    }
    forall i, j | SameDepth(after, i, j)
      ensures i == j
    {
      assert SameDepth(sessions, i, j);
    }
    forall i | i in after && after[i].revoked == Some(Rotated)
      ensures IsParent(after, i)
    {
      assert IsParent(sessions, i);
      forall j | j in sessions && sessions[j].parent == Some(i)
        ensures j in after
      {
        assert Linked(sessions, j);
      }
      ParentStays(sessions, after, i);
    }
  }

  lemma PurgeKeeps(db: Db, cutoff: int)
    requires Inv(db)
    ensures Inv(db.(sessions := Purge(db.sessions, cutoff)))
  {
    PurgedTables(db.sessions, cutoff);
    PurgeKeepsShape(db.sessions, cutoff);
    IntentsSurvive(db, db.(sessions := Purge(db.sessions, cutoff)));
  }

  lemma ReadKeeps(db: Db, id: nat, intents: seq<Intent>)
    requires Inv(db) && id in db.sessions
    requires forall k :: 0 <= k < |intents| ==>
               intents[k] == Rotate(id, db.sessions[id]) || (intents[k].Kill? && intents[k].chain == db.sessions[id].chain)
    ensures Inv(db.(intents := db.intents + intents))
  {
  }

  lemma ResumeKeeps(db: Db, k: nat)
    requires Inv(db) && k < |db.intents|
    ensures Inv(Act(db, db.intents[k]))
  {
    assert IntentValid(db.sessions, db.nextSession, db.intents[k]);
    match db.intents[k]
    case Rotate(id, row) =>
      if CanRotate(db, id) {
        RotateKeeps(db, id, row);
      }
    case Kill(chain, cause) => EndingKeeps(db, Act(db, db.intents[k]));
  }

  lemma StepKeeps(db: Db, event: Event)
    requires Inv(db)
    ensures Inv(Step(db, event))
  {
    match event
    case SignIn(user, expires) => LoginKeeps(db, user, expires);
    case ReadForRefresh(id, now, active) =>
      if id in db.sessions {
        ReadKeeps(db, id, IntentOf(id, db.sessions[id], now, active));
      }
    case ReadForLogout(id, cause) =>
      if id in db.sessions {
        ReadKeeps(db, id, [Kill(db.sessions[id].chain, cause)]);
      }
    case Resume(k) =>
      if k < |db.intents| {
        ResumeKeeps(db, k);
      }
    case PurgeOld(cutoff) => PurgeKeeps(db, cutoff);
    case Forgot(user, expires) =>
    case _ => EndingKeeps(db, Step(db, event));
  }

  lemma {:induction false} RunKeeps(db: Db, events: seq<Event>)
    requires Inv(db)
    ensures Inv(Run(db, events))
  {
    if events != [] {
      var n := |events| - 1;
      RunKeeps(db, events[..n]);
      StepKeeps(Run(db, events[..n]), events[n]);
    }
  }

  lemma Reachable(events: seq<Event>)
    ensures Inv(Run(EmptyDb(), events))
  {
    RunKeeps(EmptyDb(), events);
  }

  // ----- A chain is one line ------------------------------------------------

  /** From the login down to a session, following parents. */
  ghost function Lineage(sessions: map<nat, Session>, i: nat): (line: seq<nat>)
    requires AllLinked(sessions) && i in sessions
    ensures |line| == sessions[i].counter + 1 && line[|line| - 1] == i
    decreases i
  {
    assert Linked(sessions, i);
    if sessions[i].parent.None? then [i] else Lineage(sessions, sessions[i].parent.value) + [i]
  }

  /** The k-th session of a line, seen from its neighbours. */
  ghost predicate InPlace(sessions: map<nat, Session>, chain: nat, line: seq<nat>, k: nat)
    requires k < |line|
  {
    && line[k] in sessions && chain in sessions
    && var row := sessions[line[k]];
    && row.chain == chain
    && row.counter == k
    && row.parent == (if k == 0 then None else Some(line[k - 1]))
    && row.expires == sessions[chain].expires
    && row.user == sessions[chain].user
    && (row.revoked == Some(Rotated) <==> k < |line| - 1)
  }

  /**
   * The sessions of `chain`, in order: counters 0, 1, 2, ..., each the child of
   * the one before, one expiry and one user, everything but the last ROTATED
   * and the last not.
   */
  ghost predicate IsLine(sessions: map<nat, Session>, chain: nat, line: seq<nat>) {
    && line != [] && line[0] == chain
    && (forall k :: 0 <= k < |line| ==> InPlace(sessions, chain, line, k))
    && (forall i :: i in sessions && sessions[i].chain == chain ==> i in line)
  }

  lemma {:induction false} LineageFacts(sessions: map<nat, Session>, i: nat, k: nat)
    requires AllLinked(sessions) && i in sessions && k <= sessions[i].counter
    ensures var line := Lineage(sessions, i);
            && line[k] in sessions
            && sessions[line[k]].chain == sessions[i].chain
            && sessions[line[k]].counter == k
            && sessions[line[k]].parent == (if k == 0 then None else Some(line[k - 1]))
            && (k < sessions[i].counter ==> sessions[line[k]].revoked == Some(Rotated))
    decreases i
  {
    assert Linked(sessions, i);
    if k < sessions[i].counter {
      LineageFacts(sessions, sessions[i].parent.value, k);
    }
  }

  ghost function Members(sessions: map<nat, Session>, chain: nat): set<nat> {
    set i | i in sessions && sessions[i].chain == chain
  }

  lemma {:induction false} Deepest(sessions: map<nat, Session>, ids: set<nat>) returns (last: nat)
    requires ids != {} && ids <= sessions.Keys
    ensures last in ids && forall i :: i in ids ==> sessions[i].counter <= sessions[last].counter
  {
    last :| last in ids;
    if ids != {last} {
      var deepest := Deepest(sessions, ids - {last});
      if sessions[deepest].counter > sessions[last].counter {
        last := deepest;
      }
    }
  }

  lemma DeepestIsNotRotated(sessions: map<nat, Session>, chain: nat, last: nat)
    requires Shape(sessions) && last in Members(sessions, chain)
    requires forall i :: i in Members(sessions, chain) ==> sessions[i].counter <= sessions[last].counter
    ensures sessions[last].revoked != Some(Rotated)
  {
    forall j | j in sessions
      ensures sessions[j].parent != Some(last)
    {
      assert Linked(sessions, j);
      assert sessions[j].chain == chain ==> j in Members(sessions, chain);
    }
    assert !IsParent(sessions, last);
  }

  lemma LineInPlace(sessions: map<nat, Session>, chain: nat, last: nat, k: nat)
    requires Shape(sessions) && last in Members(sessions, chain) && k <= sessions[last].counter
    requires sessions[last].revoked != Some(Rotated)
    ensures InPlace(sessions, chain, Lineage(sessions, last), k)
  {
    LineageFacts(sessions, last, k);
    assert Linked(sessions, Lineage(sessions, last)[k]);
  }

  lemma ChainIsLineOf(sessions: map<nat, Session>, i: nat) returns (line: seq<nat>)
    requires Shape(sessions) && i in sessions
    ensures IsLine(sessions, sessions[i].chain, line)
  {
    var chain := sessions[i].chain;
    assert i in Members(sessions, chain);
    var last := Deepest(sessions, Members(sessions, chain));
    DeepestIsNotRotated(sessions, chain, last);
    line := Lineage(sessions, last);
    forall k | 0 <= k < |line|
      ensures InPlace(sessions, chain, line, k)
    {
      LineInPlace(sessions, chain, last, k);
    }
    forall j | j in sessions && sessions[j].chain == chain
      ensures j in line
    {
      assert j in Members(sessions, chain);
      assert InPlace(sessions, chain, line, sessions[j].counter);
      assert SameDepth(sessions, line[sessions[j].counter], j);
    }
    assert InPlace(sessions, chain, line, 0);
    assert Linked(sessions, line[0]);
  }

  /** In every run, every chain is one line. */
  lemma ChainIsLine(events: seq<Event>, i: nat)
    requires i in Run(EmptyDb(), events).sessions
    ensures var sessions := Run(EmptyDb(), events).sessions;
            exists line :: IsLine(sessions, sessions[i].chain, line)
  {
    Reachable(events);
    var line := ChainIsLineOf(Run(EmptyDb(), events).sessions, i);
  }

  lemma OneLiveOf(sessions: map<nat, Session>, i: nat, j: nat)
    requires Shape(sessions) && i in sessions && j in sessions
    requires sessions[i].chain == sessions[j].chain && sessions[i].revoked.None?
    ensures sessions[j].counter <= sessions[i].counter && (sessions[j].revoked.None? ==> i == j)
  {
    var chain := sessions[i].chain;
    var line := ChainIsLineOf(sessions, i);
    var k :| 0 <= k < |line| && line[k] == i;
    var l :| 0 <= l < |line| && line[l] == j;
    assert InPlace(sessions, chain, line, k) && InPlace(sessions, chain, line, l);
  }

  /** So at most one session of a login is usable, and it is the last one minted. */
  lemma OneLiveSession(events: seq<Event>, i: nat, j: nat)
    requires var sessions := Run(EmptyDb(), events).sessions;
             && i in sessions && j in sessions
             && sessions[i].chain == sessions[j].chain && sessions[i].revoked.None?
    ensures var sessions := Run(EmptyDb(), events).sessions;
            sessions[j].counter <= sessions[i].counter && (sessions[j].revoked.None? ==> i == j)
  {
    Reachable(events);
    OneLiveOf(Run(EmptyDb(), events).sessions, i, j);
  }

  /** A session is marked ROTATED exactly when it has a child. */
  lemma RotatedIffParent(events: seq<Event>, i: nat)
    requires i in Run(EmptyDb(), events).sessions
    ensures var sessions := Run(EmptyDb(), events).sessions;
            sessions[i].revoked == Some(Rotated) <==> IsParent(sessions, i)
  {
    Reachable(events);
    var sessions := Run(EmptyDb(), events).sessions;
    if IsParent(sessions, i) {
      var j :| j in sessions && sessions[j].parent == Some(i);
      assert Linked(sessions, j);
    }
  }

  /** However many refreshes race on one token, it never mints two children. */
  lemma OneChild(events: seq<Event>, i: nat, j: nat)
    requires var sessions := Run(EmptyDb(), events).sessions;
             i in sessions && j in sessions && sessions[i].parent.Some? && sessions[i].parent == sessions[j].parent
    ensures i == j
  {
    Reachable(events);
    var sessions := Run(EmptyDb(), events).sessions;
    assert Linked(sessions, i) && Linked(sessions, j);
    assert SameDepth(sessions, i, j);
  }

  /** The purge removes a chain as a whole or not at all, and changes nothing it leaves. */
  lemma PurgeWholeChains(events: seq<Event>, cutoff: int, i: nat, j: nat)
    requires var sessions := Run(EmptyDb(), events).sessions;
             i in sessions && j in sessions && sessions[i].chain == sessions[j].chain
    ensures var db := Run(EmptyDb(), events);
            var after := Step(db, PurgeOld(cutoff)).sessions;
            && (i in after <==> j in after)
            && (i in after ==> after[i] == db.sessions[i])
  {
    Reachable(events);
    var sessions := Run(EmptyDb(), events).sessions;
    assert Linked(sessions, i) && Linked(sessions, j);
    PurgedTables(sessions, cutoff);
  }

  // ----- Dead chains stay dead ----------------------------------------------

  /** None of the chain's sessions is usable. */
  ghost predicate AllRevoked(sessions: map<nat, Session>, chain: nat) {
    forall i :: i in sessions && sessions[i].chain == chain ==> sessions[i].revoked.Some?
  }

  /** The login has happened and has no usable session left. */
  ghost predicate Dead(db: Db, chain: nat) {
    chain < db.nextSession && AllRevoked(db.sessions, chain)
  }

  lemma DeadResume(db: Db, k: nat, chain: nat)
    requires Inv(db) && Dead(db, chain) && k < |db.intents|
    ensures Dead(Act(db, db.intents[k]), chain)
  {
    assert IntentValid(db.sessions, db.nextSession, db.intents[k]);
    match db.intents[k]
    case Rotate(id, row) =>
      if CanRotate(db, id) {
        RotatedTables(db, id, row);
      }
    case Kill(c, cause) =>
  }

  lemma DeadStep(db: Db, event: Event, chain: nat)
    requires Inv(db) && Dead(db, chain)
    ensures Dead(Step(db, event), chain)
  {
    match event
    case Resume(k) =>
      if k < |db.intents| {
        DeadResume(db, k, chain);
      }
    case PurgeOld(cutoff) => PurgedTables(db.sessions, cutoff);
    case _ =>
  }

  /**
   * Whatever killed the chain, and whatever any request had already read before
   * that, no continuation makes one of its sessions usable again.
   */
  lemma {:induction false} DeadStaysDead(db: Db, later: seq<Event>, chain: nat)
    requires Inv(db) && Dead(db, chain)
    ensures Dead(Run(db, later), chain)
  {
    if later != [] {
      var n := |later| - 1;
      DeadStaysDead(db, later[..n], chain);
      RunKeeps(db, later[..n]);
      DeadStep(Run(db, later[..n]), later[n], chain);
    }
  }

  /** A request that decided to revoke a chain kills it for good when it resumes. */
  lemma KilledForGood(events: seq<Event>, k: nat, later: seq<Event>)
    requires k < |Run(EmptyDb(), events).intents| && Run(EmptyDb(), events).intents[k].Kill?
    ensures var db := Run(EmptyDb(), events);
            Dead(Run(Step(db, Resume(k)), later), db.intents[k].chain)
  {
    Reachable(events);
    var db := Run(EmptyDb(), events);
    assert IntentValid(db.sessions, db.nextSession, db.intents[k]);
    StepKeeps(db, Resume(k));
    assert AllRevoked(RevokeChain(db.sessions, db.intents[k].chain, db.intents[k].cause), db.intents[k].chain);
    DeadStaysDead(Step(db, Resume(k)), later, db.intents[k].chain);
  }

  /** Presenting a token condemns its chain for reuse exactly when the token has already minted a session. */
  lemma ReuseIffRotated(events: seq<Event>, id: nat, now: int, active: bool)
    requires id in Run(EmptyDb(), events).sessions
    ensures var db := Run(EmptyDb(), events);
            var added := Step(db, ReadForRefresh(id, now, active)).intents[|db.intents|..];
            Kill(db.sessions[id].chain, ReuseDetected) in added <==> IsParent(db.sessions, id)
  {
    var db := Run(EmptyDb(), events);
    RotatedIffParent(events, id);
    assert Step(db, ReadForRefresh(id, now, active)).intents[|db.intents|..] == IntentOf(id, db.sessions[id], now, active);
  }

  /** Ids are never reused, and a revoked row keeps its chain and its reason for as long as it exists. */
  predicate KeepsReason(db: Db, id: nat, chain: nat, reason: Reason) {
    id < db.nextSession && (id in db.sessions ==> db.sessions[id].chain == chain && db.sessions[id].revoked == Some(reason))
  }

  lemma ReasonStep(db: Db, event: Event, id: nat, chain: nat, reason: Reason)
    requires Inv(db) && KeepsReason(db, id, chain, reason)
    ensures KeepsReason(Step(db, event), id, chain, reason)
  {
    match event
    case Resume(k) =>
      if k < |db.intents| && db.intents[k].Rotate? && CanRotate(db, db.intents[k].id) {
        RotatedTables(db, db.intents[k].id, db.intents[k].row);
      }
    case PurgeOld(cutoff) => PurgedTables(db.sessions, cutoff);
    case _ =>
  }

  lemma {:induction false} ReasonStays(db: Db, later: seq<Event>, id: nat, chain: nat, reason: Reason)
    requires Inv(db) && KeepsReason(db, id, chain, reason)
    ensures KeepsReason(Run(db, later), id, chain, reason)
  {
    if later != [] {
      var n := |later| - 1;
      ReasonStays(db, later[..n], id, chain, reason);
      RunKeeps(db, later[..n]);
      ReasonStep(Run(db, later[..n]), later[n], id, chain, reason);
    }
  }

  /**
   * A refresh that reads the token at any time after another refresh won with
   * it decides to kill the chain, and does so when it resumes.
   */
  lemma LateReadKills(events: seq<Event>, k: nat, later: seq<Event>, now: int, active: bool)
    requires var db := Run(EmptyDb(), events);
             k < |db.intents| && db.intents[k].Rotate? && CanRotate(db, db.intents[k].id)
    requires var db := Run(EmptyDb(), events);
             db.intents[k].id in Run(Step(db, Resume(k)), later).sessions
    ensures var db := Run(EmptyDb(), events);
            var id := db.intents[k].id;
            var after := Run(Step(db, Resume(k)), later);
            var read := Step(after, ReadForRefresh(id, now, active));
            && read.intents == after.intents + [Kill(db.sessions[id].chain, ReuseDetected)]
            && Dead(Step(read, Resume(|after.intents|)), db.sessions[id].chain)
  {
    Reachable(events);
    var db := Run(EmptyDb(), events);
    var id, won := db.intents[k].id, Step(db, Resume(k));
    RotatedTables(db, id, db.intents[k].row);
    StepKeeps(db, Resume(k));
    ReasonStays(won, later, id, db.sessions[id].chain, Rotated);
    RunKeeps(won, later);
    KillWhenRead(Run(won, later), id, now, active);
  }

  lemma KillWhenRead(db: Db, id: nat, now: int, active: bool)
    requires Inv(db) && id in db.sessions && db.sessions[id].revoked == Some(Rotated)
    ensures var read := Step(db, ReadForRefresh(id, now, active));
            && read.intents == db.intents + [Kill(db.sessions[id].chain, ReuseDetected)]
            && Dead(Step(read, Resume(|db.intents|)), db.sessions[id].chain)
  {
    var read := Step(db, ReadForRefresh(id, now, active));
    assert read.intents[|db.intents|] == Kill(db.sessions[id].chain, ReuseDetected);
    assert AllRevoked(RevokeChain(db.sessions, db.sessions[id].chain, ReuseDetected), db.sessions[id].chain);
  }

  /** A password reset evicts every login of the user, for good. */
  lemma ResetEvicts(events: seq<Event>, token: nat, now: int, later: seq<Event>, i: nat)
    requires var db := Run(EmptyDb(), events);
             CanRedeem(db, token, now) && i in db.sessions && db.sessions[i].user == db.tokens[token].user
    ensures var db := Run(EmptyDb(), events);
            Dead(Run(Step(db, Redeem(token, now)), later), db.sessions[i].chain)
  {
    Reachable(events);
    var db := Run(EmptyDb(), events);
    StepKeeps(db, Redeem(token, now));
    UserRevoked(db.sessions, db.tokens[token].user, PasswordChanged, i);
    DeadStaysDead(Step(db, Redeem(token, now)), later, db.sessions[i].chain);
  }

  lemma UserRevoked(sessions: map<nat, Session>, user: int, cause: Cause, i: nat)
    requires AllLinked(sessions) && i in sessions && sessions[i].user == user
    ensures AllRevoked(RevokeUser(sessions, user, cause), sessions[i].chain)
  {
    assert Linked(sessions, i);
    forall j | j in sessions && sessions[j].chain == sessions[i].chain
      ensures sessions[j].user == user
    {
      assert Linked(sessions, j);
    }
  }

  // ----- Expiry and suspension ----------------------------------------------

  /**
   * What a refresh decides, on the columns of the row it reads: to rotate
   * exactly a live session that has not expired and whose account is active, to
   * kill the chain of a rotated one or of an inactive account, and otherwise
   * nothing.
   */
  lemma RefreshDecides(db: Db, id: nat, now: int, active: bool)
    requires id in db.sessions
    ensures var row, read := db.sessions[id], Step(db, ReadForRefresh(id, now, active));
            && read == db.(intents := read.intents)
            && (read.intents == db.intents + [Rotate(id, row)] <==> row.revoked.None? && now <= row.expires && active)
            && (read.intents == db.intents + [Kill(row.chain, ReuseDetected)] <==> row.revoked == Some(Rotated))
            && (read.intents == db.intents + [Kill(row.chain, UserDeactivated)] <==> row.revoked.None? && now <= row.expires && !active)
            && (read.intents == db.intents <==> if row.revoked.None? then row.expires < now else row.revoked != Some(Rotated))
  {
    var read := Step(db, ReadForRefresh(id, now, active));
    assert read.intents != db.intents ==> |read.intents| == |db.intents| + 1 && read.intents[|db.intents|] == IntentOf(id, db.sessions[id], now, active)[0];
    assert db.intents + [] == db.intents;
  }

  /** No request that has read a session of the chain is about to rotate it. */
  ghost predicate NoneWaiting(db: Db, chain: nat) {
    forall k :: 0 <= k < |db.intents| && db.intents[k].Rotate? ==> db.intents[k].row.chain != chain
  }

  /** The sessions of a chain that are left are among those it had, and lapse when they did. */
  ghost predicate NoneAdded(before: Db, after: Db, chain: nat, expires: int) {
    forall i :: i in after.sessions && after.sessions[i].chain == chain ==> i in before.sessions && after.sessions[i].expires == expires
  }

  lemma LapsedStep(start: Db, db: Db, event: Event, chain: nat, expires: int)
    requires Inv(db) && chain < db.nextSession && NoneWaiting(db, chain) && NoneAdded(start, db, chain, expires)
    requires event.ReadForRefresh? ==> event.now > expires
    ensures chain < Step(db, event).nextSession
    ensures NoneWaiting(Step(db, event), chain) && NoneAdded(start, Step(db, event), chain, expires)
  {
    match event
    case ReadForRefresh(id, now, active) =>
      if id in db.sessions {
        RefreshDecides(db, id, now, active);
      }
    case Resume(k) =>
      if k < |db.intents| {
        LapsedResume(start, db, k, chain, expires);
      }
    case PurgeOld(cutoff) => PurgedTables(db.sessions, cutoff);
    case _ =>
  }

  lemma LapsedResume(start: Db, db: Db, k: nat, chain: nat, expires: int)
    requires Inv(db) && NoneWaiting(db, chain) && NoneAdded(start, db, chain, expires) && k < |db.intents|
    ensures NoneWaiting(Act(db, db.intents[k]), chain) && NoneAdded(start, Act(db, db.intents[k]), chain, expires)
  {
    match db.intents[k]
    case Rotate(id, row) =>
      if CanRotate(db, id) {
        RotatedTables(db, id, row);
      }
    case Kill(c, cause) =>
  }

  /**
   * A login does not outlive its expiry: once the clock has passed it and no
   * refresh is under way, the chain mints no further session, whatever happens.
   */
  lemma {:induction false} LapsedChainEnds(db: Db, later: seq<Event>, chain: nat, expires: int)
    requires Inv(db) && chain < db.nextSession && NoneWaiting(db, chain)
    requires forall i :: i in db.sessions && db.sessions[i].chain == chain ==> db.sessions[i].expires == expires
    requires forall k :: 0 <= k < |later| && later[k].ReadForRefresh? ==> later[k].now > expires
    ensures chain < Run(db, later).nextSession
    ensures NoneWaiting(Run(db, later), chain) && NoneAdded(db, Run(db, later), chain, expires)
  {
    if later != [] {
      var n := |later| - 1;
      LapsedChainEnds(db, later[..n], chain, expires);
      RunKeeps(db, later[..n]);
      LapsedStep(db, Run(db, later[..n]), later[n], chain, expires);
    }
  }

  // ----- Losing a refresh race ----------------------------------------------

  /**
   * Of two refreshes that read the same live row, the second to write is
   * refused without any effect: reuse detection runs on what was read, so the
   * winner's child stays usable.
   */
  lemma LoserChangesNothing(events: seq<Event>, k: nat, l: nat)
    requires var db := Run(EmptyDb(), events);
             && k < |db.intents| && l < |db.intents|
             && db.intents[k].Rotate? && db.intents[l].Rotate? && db.intents[k].id == db.intents[l].id
             && CanRotate(db, db.intents[k].id)
    ensures var db := Run(EmptyDb(), events);
            var won := Step(db, Resume(k));
            && Step(won, Resume(l)) == won
            && db.nextSession in won.sessions && won.sessions[db.nextSession].revoked.None?
            && won.sessions[db.nextSession].chain == db.sessions[db.intents[k].id].chain
  {
    Reachable(events);
    var db := Run(EmptyDb(), events);
    assert IntentValid(db.sessions, db.nextSession, db.intents[k]);
    RotatedTables(db, db.intents[k].id, db.intents[k].row);
  }

  // ----- Reset tokens -------------------------------------------------------

  function Is(token: nat): nat -> int {
    (t: nat) => if t == token then 1 else 0
  }

  ghost predicate RedeemedOnce(db: Db, token: nat) {
    && (token < |db.tokens| && db.tokens[token].used ==> Sum(db.redeemed, Is(token)) <= 1)
    && (token >= |db.tokens| || !db.tokens[token].used ==> Sum(db.redeemed, Is(token)) == 0)
  }

  ghost predicate OneLink(db: Db) {
    forall t, u :: 0 <= t < u < |db.tokens| && db.tokens[t].user == db.tokens[u].user ==> db.tokens[t].used || db.tokens[u].used
  }

  lemma TokenStep(db: Db, event: Event, token: nat)
    requires RedeemedOnce(db, token) && OneLink(db)
    ensures RedeemedOnce(Step(db, event), token) && OneLink(Step(db, event))
  {
    if event.Redeem? && CanRedeem(db, event.token, event.now) {
      SumAppend(db.redeemed, event.token, Is(token));
    }
  }

  /** A reset link works at most once, however its redemptions race, and only the newest one works. */
  lemma {:induction false} ResetOnce(events: seq<Event>, token: nat)
    ensures var db := Run(EmptyDb(), events);
            && Sum(db.redeemed, Is(token)) <= 1
            && OneLink(db)
    ensures RedeemedOnce(Run(EmptyDb(), events), token)
  {
    if events != [] {
      var n := |events| - 1;
      ResetOnce(events[..n], token);
      TokenStep(Run(EmptyDb(), events[..n]), events[n], token);
    }
  }
}
